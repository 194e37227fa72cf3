# PyMoDAQ DAQmx photon-counter plugins, modelled in Dafny

PyMoDAQ is a data-acquisition framework. This repository adds two 0-D
viewer plugins to it, "PL simple counter" and "DAQmx counter", which
count photons with a National-Instruments card. Each plugin drives two
driver tasks, both kept in the plugin's `controller` dict:

- the **clock** task emits a pulse train at `clock_freq` Hz;
- the **counter** task measures semi-periods of that pulse train. It is
  gated by the clock's internal output terminal, `"/" + <clock> +
  "InternalOutput"`, and uses the photon signal as its timebase.

A read returns tick counts in pairs, one count per half-period. A pair's sum is the
number of photons in one clock period. The plugin converts each pair into
a rate in kilocounts per second:
`1e-3 * (r[::2] + r[1::2]) / counting_time`, where
`counting_time = 1 / clock_freq`.

The model has seven modules:

- `Wrappers` holds `Option` and `Outcome`.
- `Driver` is an abstract card. Its class `Card` holds:
  - `tasks`, the task in each controller slot;
  - `trace`, an append-only log of every driver call the plugin makes.

  Its invariant `Valid()` says that `tasks` is always the replay (`Run`)
  of `trace`. Each replayed call has the effect given by `Step`. A call
  raises when it names a physical counter the card does not have
  (`device`), and a call that raises changes nothing. A read raises
  unless the counter task exists, is not closed and holds a channel.
- `Conversion` holds the pairwise rate conversion and `counting_time`.
- `Terminals` holds the gate terminal name and its inverse.
- `Acquisition` holds what both plugins share:
  - the settings tree and the changes `commit_settings` receives;
  - the grab decision over the `live` flag;
  - the "synchronised pair" a successful rebuild leaves on the card;
  - the rule that every gate is wired to the clock task current at that
    moment.
- `PLSimpleCounter` and `DAQmxCounter` are the two plugins.
  - Each is a class `Viewer` with the plugin's attributes (`settings`,
    `controller`, `live`, `countingTime`, and for `DAQmxCounter` also
    `clockChannel` and `counterChannel`).
  - Each also keeps a log of the status messages and of the data it
    emits.
  - Each source method is a method of `Viewer` whose `ensures` give the
    exact calls it appends to the card's trace (`RebuildCalls`,
    `GrabCalls`, `CloseBoth`, `StartBoth`), the new values of the
    attributes, and the task state it leaves.
  - Lemmas about those call sequences prove the wiring, timing and read
    policy, and that every gate follows the clock.

The two plugins differ in three ways:

- **`update_tasks`, simple counter.** It closes the existing counter
  task, then the existing clock task. It then builds the counter task
  before the clock task.
- **`update_tasks`, DAQmx counter.** It hands channel descriptors to the
  driver's `update_task` and closes nothing. The clock is configured
  first, so a missing clock channel is reported before a missing counter
  channel.
- **What a grab emits.** Only the simple counter posts a "Data Output"
  status with each grab.

`counting_time` changes in two places only: when `ini_detector`
succeeds, and when `clock_freq` is committed. So after a failed
initialisation, it keeps its initial 0.1 s even when a later rebuild
succeeds through another key. The `IniDetector` and `CommitSettings`
contracts state this.

## Model

| member | source | states |
|---|---|---|
| Conversion.Evens | src/pymodaq_plugins_daqmx/daq_viewer_plugins/plugins_0D/daq_0Dviewer_DAQmx_PL_simple_counter.py:124 | `r[::2]`: ⌈n/2⌉ elements; element i is `r[2i]` |
| Conversion.Odds | src/pymodaq_plugins_daqmx/daq_viewer_plugins/plugins_0D/daq_0Dviewer_DAQmx_PL_simple_counter.py:124 | `r[1::2]`: ⌊n/2⌋ elements; element i is `r[2i+1]` |
| Conversion.CountingTime | src/pymodaq_plugins_daqmx/daq_viewer_plugins/plugins_0D/daq_0Dviewer_DAQmx_PL_simple_counter.py:83 | `1/clock_freq` is positive and multiplies with the frequency to 1 |
| Conversion.Rates | src/pymodaq_plugins_daqmx/daq_viewer_plugins/plugins_0D/daq_0Dviewer_DAQmx_PL_simple_counter.py:124 | 2n tick counts give n rates; rate i is `1e-3·(r[2i]+r[2i+1])/counting_time` |
| Conversion.RatesRecoverTicks | src/pymodaq_plugins_daqmx/daq_viewer_plugins/plugins_0D/daq_0Dviewer_DAQmx_PL_simple_counter.py:124 | inverse: rate i times 1000 times `counting_time` gives back the ticks of pair i |
| Conversion.PairReadGivesOneRate | src/pymodaq_plugins_daqmx/daq_viewer_plugins/plugins_0D/daq_0Dviewer_DAQmx_PL_simple_counter.py:122-124 | the fixed two-sample read gives exactly one rate, the scaled sum of both counts |
| Conversion.RatesAtClockFrequency | src/pymodaq_plugins_daqmx/daq_viewer_plugins/plugins_0D/daq_0Dviewer_DAQmx_counter.py:127 | with `counting_time = 1/f`, rate i is `1e-3·(ticks of pair i)·f` |
| Conversion.RatesConcat | src/pymodaq_plugins_daqmx/daq_viewer_plugins/plugins_0D/daq_0Dviewer_DAQmx_counter.py:127-129 | converting a batch equals converting its two even-length parts and concatenating |
| Terminals.GateTerminal | src/pymodaq_plugins_daqmx/daq_viewer_plugins/plugins_0D/daq_0Dviewer_DAQmx_PL_simple_counter.py:175 | the terminal is `/`, then the clock channel, then `InternalOutput`, and nothing else |
| Terminals.ClockOfGate | src/pymodaq_plugins_daqmx/daq_viewer_plugins/plugins_0D/daq_0Dviewer_DAQmx_PL_simple_counter.py:175 | parses a gate terminal; any clock it returns rebuilds exactly that terminal |
| Terminals.GateTerminalRoundTrip | src/pymodaq_plugins_daqmx/daq_viewer_plugins/plugins_0D/daq_0Dviewer_DAQmx_PL_simple_counter.py:175 | parsing `"/" + c + "InternalOutput"` gives back `c` |
| Terminals.GateTerminalInjective | src/pymodaq_plugins_daqmx/daq_viewer_plugins/plugins_0D/daq_0Dviewer_DAQmx_counter.py:163 | two clock channels give the same gate terminal if and only if they are equal |
| Acquisition.Apply | src/pymodaq_plugins_daqmx/daq_viewer_plugins/plugins_0D/daq_0Dviewer_DAQmx_PL_simple_counter.py:30-31 | storing a changed value keeps the clock frequency positive |
| Acquisition.Rebuilds | src/pymodaq_plugins_daqmx/daq_viewer_plugins/plugins_0D/daq_0Dviewer_DAQmx_PL_simple_counter.py:111-116 | a grab skips the rebuild if and only if `live=True` is passed while already live |
| Acquisition.LiveAfter | src/pymodaq_plugins_daqmx/daq_viewer_plugins/plugins_0D/daq_0Dviewer_DAQmx_PL_simple_counter.py:113-116 | a passed `live` becomes the flag; with no argument the flag is kept |
| Acquisition.RepeatedLiveGrabReuses | src/pymodaq_plugins_daqmx/daq_viewer_plugins/plugins_0D/daq_0Dviewer_DAQmx_counter.py:111-116 | the second of two live grabs never rebuilds |
| Acquisition.SnapshotGrabRebuilds | src/pymodaq_plugins_daqmx/daq_viewer_plugins/plugins_0D/daq_0Dviewer_DAQmx_counter.py:111-118 | a grab without `live=True` always rebuilds |
| Acquisition.Synchronized | src/pymodaq_plugins_daqmx/daq_viewer_plugins/plugins_0D/daq_0Dviewer_DAQmx_PL_simple_counter.py:173-181 | in a synchronised pair that is open or running both tasks can be read; the counter's gate parses back to the clock channel and, while open, names the open clock task's output |
| Acquisition.GateTracksConcat | src/pymodaq_plugins_daqmx/daq_viewer_plugins/plugins_0D/daq_0Dviewer_DAQmx_PL_simple_counter.py:175 | "every gate names the current clock" holds of a call sequence when it holds of both parts |
| Acquisition.StartKeepsSynchronized | src/pymodaq_plugins_daqmx/daq_viewer_plugins/plugins_0D/daq_0Dviewer_DAQmx_PL_simple_counter.py:120-121 | starting clock then counter turns the open synchronised pair into a running one, wiring intact |
| Driver.StepFrame | src/pymodaq_plugins_daqmx/daq_viewer_plugins/plugins_0D/daq_0Dviewer_DAQmx_PL_simple_counter.py:142-181 | a driver call touches only its own slot: it removes no task, adds one only by creating or updating, and leaves the other slot as it was; a call on an empty slot other than create or update changes nothing |
| Driver.RunFrame | src/pymodaq_plugins_daqmx/daq_viewer_plugins/plugins_0D/daq_0Dviewer_DAQmx_PL_simple_counter.py:142-181 | replaying calls never removes a task, and a slot no call addresses keeps its task unchanged |
| Driver.RunConcat | src/pymodaq_plugins_daqmx/daq_viewer_plugins/plugins_0D/daq_0Dviewer_DAQmx_PL_simple_counter.py:142-181 | replaying two call sequences in turn is replaying their concatenation |
| Driver.RunKeepsChannelsOnCard | src/pymodaq_plugins_daqmx/daq_viewer_plugins/plugins_0D/daq_0Dviewer_DAQmx_counter.py:153-161 | no sequence of driver calls puts a channel the card lacks into a task |
| Driver.CloseIdempotent | src/pymodaq_plugins_daqmx/daq_viewer_plugins/plugins_0D/daq_0Dviewer_DAQmx_PL_simple_counter.py:145-152 | closing an already closed task changes nothing |
| Driver.CloseBothClosesAll | src/pymodaq_plugins_daqmx/daq_viewer_plugins/plugins_0D/daq_0Dviewer_DAQmx_PL_simple_counter.py:96-99 | closing clock then counter closes every task and removes none |
| Driver.Card.CloseTask | src/pymodaq_plugins_daqmx/daq_viewer_plugins/plugins_0D/daq_0Dviewer_DAQmx_PL_simple_counter.py:98-99 | `close()` records the call and closes the slot's task if there is one |
| Driver.Card.CreateTask | src/pymodaq_plugins_daqmx/daq_viewer_plugins/plugins_0D/daq_0Dviewer_DAQmx_PL_simple_counter.py:156 | `niTask()` puts a blank open task into the slot |
| Driver.Card.AddSemiPeriodChan | src/pymodaq_plugins_daqmx/daq_viewer_plugins/plugins_0D/daq_0Dviewer_DAQmx_PL_simple_counter.py:157-160 | the channel is added if and only if the task is open and the card has the counter |
| Driver.Card.AddPulseChanFreq | src/pymodaq_plugins_daqmx/daq_viewer_plugins/plugins_0D/daq_0Dviewer_DAQmx_PL_simple_counter.py:163-171 | as above, for the pulse channel; the returned channel name is the physical counter |
| Driver.Card.UpdateTask | src/pymodaq_plugins_daqmx/daq_viewer_plugins/plugins_0D/daq_0Dviewer_DAQmx_counter.py:153-155 | replaces the slot's task by a new one holding the described channel, if and only if the card has it |
| Driver.Card.CfgImplicitTiming | src/pymodaq_plugins_daqmx/daq_viewer_plugins/plugins_0D/daq_0Dviewer_DAQmx_PL_simple_counter.py:173 | sets the task's timing, leaving its other properties |
| Driver.Card.SetSemiPeriodTerm | src/pymodaq_plugins_daqmx/daq_viewer_plugins/plugins_0D/daq_0Dviewer_DAQmx_PL_simple_counter.py:175 | sets the counter's gate terminal |
| Driver.Card.SetTimebaseSrc | src/pymodaq_plugins_daqmx/daq_viewer_plugins/plugins_0D/daq_0Dviewer_DAQmx_PL_simple_counter.py:176 | sets the counter's timebase source |
| Driver.Card.SetRelativeTo | src/pymodaq_plugins_daqmx/daq_viewer_plugins/plugins_0D/daq_0Dviewer_DAQmx_PL_simple_counter.py:179 | sets where reads start |
| Driver.Card.SetOffset | src/pymodaq_plugins_daqmx/daq_viewer_plugins/plugins_0D/daq_0Dviewer_DAQmx_PL_simple_counter.py:180 | sets the read offset |
| Driver.Card.SetOverwrite | src/pymodaq_plugins_daqmx/daq_viewer_plugins/plugins_0D/daq_0Dviewer_DAQmx_PL_simple_counter.py:181 | sets the overwrite mode |
| Driver.Card.StartTask | src/pymodaq_plugins_daqmx/daq_viewer_plugins/plugins_0D/daq_0Dviewer_DAQmx_PL_simple_counter.py:120-121 | marks an open task running |
| Driver.Card.ReadSamples | src/pymodaq_plugins_daqmx/daq_viewer_plugins/plugins_0D/daq_0Dviewer_DAQmx_PL_simple_counter.py:122 | returns the delivered samples if and only if the counter task is readable; changes no task |
| PLSimpleCounter.RebuildOutcome | src/pymodaq_plugins_daqmx/daq_viewer_plugins/plugins_0D/daq_0Dviewer_DAQmx_PL_simple_counter.py:156-171 | a rebuild succeeds if and only if the card has both channels; the counter is reported first |
| PLSimpleCounter.CloseExisting | src/pymodaq_plugins_daqmx/daq_viewer_plugins/plugins_0D/daq_0Dviewer_DAQmx_PL_simple_counter.py:145-152 | only closes: the counter's close appears exactly when it holds a task, the clock's likewise, the counter's first |
| PLSimpleCounter.CounterThenClockClosesAll | src/pymodaq_plugins_daqmx/daq_viewer_plugins/plugins_0D/daq_0Dviewer_DAQmx_PL_simple_counter.py:145-152 | closing the counter's slot and then the clock's closes every task and removes none |
| PLSimpleCounter.CloseExistingClosesAll | src/pymodaq_plugins_daqmx/daq_viewer_plugins/plugins_0D/daq_0Dviewer_DAQmx_PL_simple_counter.py:145-152 | replaying those closes closes every task the card holds and removes none |
| PLSimpleCounter.RebuildClosesFirst | src/pymodaq_plugins_daqmx/daq_viewer_plugins/plugins_0D/daq_0Dviewer_DAQmx_PL_simple_counter.py:142-156 | a rebuild begins with those closes, before the counter task is created |
| PLSimpleCounter.RebuildCallsShape | src/pymodaq_plugins_daqmx/daq_viewer_plugins/plugins_0D/daq_0Dviewer_DAQmx_PL_simple_counter.py:156-175 | a rebuild never starts or reads; it creates the clock task exactly when the counter channel was accepted, and sets the gate exactly when both channels exist |
| PLSimpleCounter.GrabCallsShape | src/pymodaq_plugins_daqmx/daq_viewer_plugins/plugins_0D/daq_0Dviewer_DAQmx_PL_simple_counter.py:111-122 | a rebuilding grab replays the rebuild first; it starts the clock exactly when the rebuild got through, and reads exactly when there was no rebuild or it got through |
| PLSimpleCounter.CounterCallsRun | src/pymodaq_plugins_daqmx/daq_viewer_plugins/plugins_0D/daq_0Dviewer_DAQmx_PL_simple_counter.py:156-160 | a new counter task holding a semi-period channel in ticks, if the card has it |
| PLSimpleCounter.ClockCallsRun | src/pymodaq_plugins_daqmx/daq_viewer_plugins/plugins_0D/daq_0Dviewer_DAQmx_PL_simple_counter.py:162-171 | a new clock task holding a pulse channel at `clock_freq`, duty 0.5, idle low, no delay |
| PLSimpleCounter.WiringCallsRun | src/pymodaq_plugins_daqmx/daq_viewer_plugins/plugins_0D/daq_0Dviewer_DAQmx_PL_simple_counter.py:173-181 | continuous 1000-sample timing on both tasks, gate on the clock's output, photon timebase, read from current position, offset 0, no overwrite |
| PLSimpleCounter.RebuildSynchronizes | src/pymodaq_plugins_daqmx/daq_viewer_plugins/plugins_0D/daq_0Dviewer_DAQmx_PL_simple_counter.py:142-181 | from any prior tasks, a rebuild that gets through leaves the open synchronised pair |
| PLSimpleCounter.FailedRebuildUnsynced | src/pymodaq_plugins_daqmx/daq_viewer_plugins/plugins_0D/daq_0Dviewer_DAQmx_PL_simple_counter.py:156-171 | a rebuild that raises leaves no synchronised pair, in any status |
| PLSimpleCounter.RebuildGateTracksClock | src/pymodaq_plugins_daqmx/daq_viewer_plugins/plugins_0D/daq_0Dviewer_DAQmx_PL_simple_counter.py:162-175 | when the gate is set, it names the output of the clock task created just before, which is open |
| PLSimpleCounter.Viewer.constructor | src/pymodaq_plugins_daqmx/daq_viewer_plugins/plugins_0D/daq_0Dviewer_DAQmx_PL_simple_counter.py:36-41 | no controller, not live, counting time 0.1 s |
| PLSimpleCounter.Viewer.CloseExistingTasks | src/pymodaq_plugins_daqmx/daq_viewer_plugins/plugins_0D/daq_0Dviewer_DAQmx_PL_simple_counter.py:145-152 | closes the existing counter task, then the existing clock task, and only those |
| PLSimpleCounter.Viewer.AddCounterTask | src/pymodaq_plugins_daqmx/daq_viewer_plugins/plugins_0D/daq_0Dviewer_DAQmx_PL_simple_counter.py:156-160 | creates the counter task and adds its channel; reports whether the card has it |
| PLSimpleCounter.Viewer.AddClockTask | src/pymodaq_plugins_daqmx/daq_viewer_plugins/plugins_0D/daq_0Dviewer_DAQmx_PL_simple_counter.py:162-171 | creates the clock task and adds its channel; the returned name is the clock channel |
| PLSimpleCounter.Viewer.WireTasks | src/pymodaq_plugins_daqmx/daq_viewer_plugins/plugins_0D/daq_0Dviewer_DAQmx_PL_simple_counter.py:173-181 | the seven wiring calls in source order; leaves the open synchronised pair |
| PLSimpleCounter.Viewer.UpdateTasks | src/pymodaq_plugins_daqmx/daq_viewer_plugins/plugins_0D/daq_0Dviewer_DAQmx_PL_simple_counter.py:142-181 | the whole call sequence, success exactly when both channels exist, synchronised pair on success, none on failure |
| PLSimpleCounter.Viewer.IniDetector | src/pymodaq_plugins_daqmx/daq_viewer_plugins/plugins_0D/daq_0Dviewer_DAQmx_PL_simple_counter.py:63-94 | fresh card, one rebuild; ("NI card based PL counter", true) and `1/clock_freq` on success, ("Error", false) and unchanged counting time otherwise; one zero placeholder either way |
| PLSimpleCounter.Viewer.Close | src/pymodaq_plugins_daqmx/daq_viewer_plugins/plugins_0D/daq_0Dviewer_DAQmx_PL_simple_counter.py:96-99 | closes clock then counter; every task closed |
| PLSimpleCounter.Viewer.Stop | src/pymodaq_plugins_daqmx/daq_viewer_plugins/plugins_0D/daq_0Dviewer_DAQmx_PL_simple_counter.py:134-140 | closes both, clears `live`, posts "Acquisition stopped.", returns `""` |
| PLSimpleCounter.Viewer.RebuildAndStart | src/pymodaq_plugins_daqmx/daq_viewer_plugins/plugins_0D/daq_0Dviewer_DAQmx_PL_simple_counter.py:118-121 | rebuild, then start clock then counter only if it got through; running synchronised pair |
| PLSimpleCounter.Viewer.CommitSettings | src/pymodaq_plugins_daqmx/daq_viewer_plugins/plugins_0D/daq_0Dviewer_DAQmx_PL_simple_counter.py:43-61 | `clock_freq`: new counting time, rebuild and restart, `live` kept; any other key: stop, then rebuild without starting |
| PLSimpleCounter.Viewer.ReadAndEmit | src/pymodaq_plugins_daqmx/daq_viewer_plugins/plugins_0D/daq_0Dviewer_DAQmx_PL_simple_counter.py:122-133 | reads two samples; on success, posts "Data Output" with the rates and emits them |
| PLSimpleCounter.Viewer.GrabData | src/pymodaq_plugins_daqmx/daq_viewer_plugins/plugins_0D/daq_0Dviewer_DAQmx_PL_simple_counter.py:101-133 | rebuild decision, call sequence, `live` afterwards, the emitted rates, and the stream reused untouched when already live |
| DAQmxCounter.RebuildOutcome | src/pymodaq_plugins_daqmx/daq_viewer_plugins/plugins_0D/daq_0Dviewer_DAQmx_counter.py:153-161 | a rebuild succeeds if and only if the card has both channels; the clock is reported first |
| DAQmxCounter.ClockDescriptorOf | src/pymodaq_plugins_daqmx/daq_viewer_plugins/plugins_0D/daq_0Dviewer_DAQmx_counter.py:147-149 | a clock-counter descriptor at `clock_freq`, named after the clock channel |
| DAQmxCounter.CounterDescriptorOf | src/pymodaq_plugins_daqmx/daq_viewer_plugins/plugins_0D/daq_0Dviewer_DAQmx_counter.py:150-151 | a semi-period descriptor with `value_max` 2e7 and a rising edge, named after the counter channel |
| DAQmxCounter.RebuildCallsShape | src/pymodaq_plugins_daqmx/daq_viewer_plugins/plugins_0D/daq_0Dviewer_DAQmx_counter.py:153-166 | a rebuild updates the clock first and never closes, creates, starts or reads; it updates the counter exactly when the clock channel was accepted, and sets the gate exactly when both channels exist |
| DAQmxCounter.GrabCallsShape | src/pymodaq_plugins_daqmx/daq_viewer_plugins/plugins_0D/daq_0Dviewer_DAQmx_counter.py:111-123 | a rebuilding grab replays the rebuild first; it starts the clock exactly when the rebuild got through, and reads exactly when there was no rebuild or it got through |
| DAQmxCounter.UpdatesRun | src/pymodaq_plugins_daqmx/daq_viewer_plugins/plugins_0D/daq_0Dviewer_DAQmx_counter.py:153-161 | clock updated and timed before the counter is updated; both new, open, holding their descriptors |
| DAQmxCounter.WiringCallsRun | src/pymodaq_plugins_daqmx/daq_viewer_plugins/plugins_0D/daq_0Dviewer_DAQmx_counter.py:163-169 | gate from the `clock_channel` setting, photon timebase, continuous 1000-sample timing, read policy |
| DAQmxCounter.RebuildSynchronizes | src/pymodaq_plugins_daqmx/daq_viewer_plugins/plugins_0D/daq_0Dviewer_DAQmx_counter.py:144-169 | from any prior tasks, a rebuild that gets through leaves the open synchronised pair of the two descriptors |
| DAQmxCounter.SyncedNeedsChannels | src/pymodaq_plugins_daqmx/daq_viewer_plugins/plugins_0D/daq_0Dviewer_DAQmx_counter.py:147-151 | a synchronised pair held by a card names two channels the card has |
| DAQmxCounter.FailedRebuildUnsynced | src/pymodaq_plugins_daqmx/daq_viewer_plugins/plugins_0D/daq_0Dviewer_DAQmx_counter.py:153-161 | a rebuild that raises leaves no synchronised pair, provided the card held only its own channels |
| DAQmxCounter.RejectedClockKeepsTasks | src/pymodaq_plugins_daqmx/daq_viewer_plugins/plugins_0D/daq_0Dviewer_DAQmx_counter.py:153-155 | under the modelled `update_task` (a rejected descriptor raises before the slot is touched), a rejected clock descriptor leaves the previous tasks untouched |
| DAQmxCounter.RebuildGateTracksClock | src/pymodaq_plugins_daqmx/daq_viewer_plugins/plugins_0D/daq_0Dviewer_DAQmx_counter.py:153-163 | when the gate is set, it names the output of the clock task updated just before, which is open |
| DAQmxCounter.Viewer.constructor | src/pymodaq_plugins_daqmx/daq_viewer_plugins/plugins_0D/daq_0Dviewer_DAQmx_counter.py:36-41 | no controller, no descriptors, not live, counting time 0.1 s |
| DAQmxCounter.Viewer.WireCounter | src/pymodaq_plugins_daqmx/daq_viewer_plugins/plugins_0D/daq_0Dviewer_DAQmx_counter.py:163-169 | the six counter calls in source order; leaves the open synchronised pair |
| DAQmxCounter.Viewer.UpdateTasks | src/pymodaq_plugins_daqmx/daq_viewer_plugins/plugins_0D/daq_0Dviewer_DAQmx_counter.py:144-169 | both descriptors stored even on failure; the call sequence; success exactly when both channels exist; synchronised pair on success, none on failure |
| DAQmxCounter.Viewer.IniDetector | src/pymodaq_plugins_daqmx/daq_viewer_plugins/plugins_0D/daq_0Dviewer_DAQmx_counter.py:63-94 | same success, failure and placeholder behaviour as the simple counter |
| DAQmxCounter.Viewer.Close | src/pymodaq_plugins_daqmx/daq_viewer_plugins/plugins_0D/daq_0Dviewer_DAQmx_counter.py:96-99 | closes clock then counter; every task closed |
| DAQmxCounter.Viewer.Stop | src/pymodaq_plugins_daqmx/daq_viewer_plugins/plugins_0D/daq_0Dviewer_DAQmx_counter.py:136-142 | closes both, clears `live`, posts "Acquisition stopped.", returns `""` |
| DAQmxCounter.Viewer.RebuildAndStart | src/pymodaq_plugins_daqmx/daq_viewer_plugins/plugins_0D/daq_0Dviewer_DAQmx_counter.py:118-121 | rebuild, then start clock then counter only if it got through; running synchronised pair |
| DAQmxCounter.Viewer.CommitSettings | src/pymodaq_plugins_daqmx/daq_viewer_plugins/plugins_0D/daq_0Dviewer_DAQmx_counter.py:43-61 | `clock_freq`: new counting time, rebuild and restart, `live` kept; any other key: stop, then rebuild without starting |
| DAQmxCounter.Viewer.ReadAndEmit | src/pymodaq_plugins_daqmx/daq_viewer_plugins/plugins_0D/daq_0Dviewer_DAQmx_counter.py:123-133 | reads two samples; on success emits the rates and posts no status |
| DAQmxCounter.Viewer.GrabData | src/pymodaq_plugins_daqmx/daq_viewer_plugins/plugins_0D/daq_0Dviewer_DAQmx_counter.py:101-135 | rebuild decision, call sequence, `live` afterwards, both descriptors rebuilt or kept, the emitted rates, and the stream reused untouched when already live |

## Left out

- The driver itself. The internals of `niTask`, `DAQmx`, `update_task`, `ClockCounter` and `SemiPeriodCounter` belong to `nidaqmx` and to the `daqmxni` module, which is not part of this model. The card keeps only the task state the plugins set. The card's `device` set stands for the physical counters it has, and a driver call raises only when it names one of those the card lacks. `ClockSettings()` and `TriggerSettings()`, passed to `update_task` with their defaults, are not represented.
- `DAQmxCounter.RejectedClockKeepsTasks`: what `update_task` does with a descriptor the card rejects is an assumption. The wrapper's body is in the `daqmxni` module, which is not part of this model. `Driver.Step` takes a rejected update to raise before it touches the slot, so the previous task stays. The lemma holds only under that assumption; it is not a difference between the plugins that the source shows.
- Parameter limits. The channel lists come from driver queries made when the class is defined, so the settings are taken as given strings.
- `Acquisition.ValidSettings`: the tree's minimum of 1 Hz for `clock_freq` is modelled only as a positive frequency. Every property here needs positivity alone.
- Blocking reads, timeouts and buffer overruns. `task.read` returns the samples given as the `samples` parameter.
- `PLSimpleCounter.Viewer.GrabData`: requires exactly two delivered samples, the number the read asks for. The conversion itself (`Conversion.Rates`) is stated for every even length. The same holds for `DAQmxCounter.Viewer.GrabData`.
- Floating point. Rates and counting times are `real`, with no IEEE rounding. numpy broadcasting on odd-length reads is excluded by the even-length requirement.
- The `try`/`except` around the emit (simple counter, lines 126-133) and around the conversion and emit (DAQmx counter, lines 125-135). With the conversion total on its domain and the emission abstract, the `except` branch cannot be reached, so it is not modelled. `np.reshape(data_pl, (len(data_pl)))` is the identity on the 1-D result and is not modelled either.
- Framework plumbing. The `DataToExport` emission is logged as `Export` values: `Temporary` for `dte_signal_temp`, `Final` for `dte_signal`. `ThreadCommand` statuses are logged as `StatusMessage` values. Threading, `Naverage`, `print(e)` and `main(__file__)` are left out.
- `PLSimpleCounter.Viewer.CommitSettings`, `GrabData`, `Stop` and `Close` (and those of `DAQmxCounter.Viewer`) require an initialised controller. Before `ini_detector`, the source fails on the `None` controller, and the host does not call them then.
- The exceptions raised by `update_tasks` and by the read are returned as a failed `Outcome` rather than propagated. `ini_detector` catches them, as the source does.
- The stray `self._task = None` lines (simple counter, lines 148 and 152). They set a plugin attribute that nothing reads, so they have no effect.
- The `isinstance(..., niTask)` tests (simple counter, lines 146 and 150). A controller slot holds only tasks the plugin created, so the test always passes.
- The simple counter's `clock_channel` and `counter_channel` attributes, set to `None` by `ini_attributes` and never used afterwards.
