/**
 * The "DAQmx counter" plugin: it hands channel descriptors to the driver's
 * `update_task`, which replaces the task in a slot by a new one holding that
 * channel, configures the clock before the counter, and wires the counter's
 * gate to the internal output of the configured clock channel.
 */
module DAQmxCounter {
  import opened Wrappers
  import opened Driver
  import opened Terminals
  import opened Conversion
  import opened Acquisition

  /** The semi-period counter's `value_max`, 2e7 ticks. */
  const CounterValueMax: real := 20000000.0

  /** The clock descriptor: a `ClockCounter` at `clock_freq` Hz on the clock channel. */
  function ClockDescriptorOf(s: Settings): (d: ChannelDescriptor)
    ensures DescribedChan(d).Name() == s.clockChannel
    ensures d.ClockCounter? && d.clockFrequency == s.clockFreq
  {
    ClockCounter(s.clockFreq, s.clockChannel, CounterSource)
  }

  /** The counter descriptor: a `SemiPeriodCounter` on the counter channel, rising edge. */
  function CounterDescriptorOf(s: Settings): (d: ChannelDescriptor)
    ensures DescribedChan(d).Name() == s.counterChannel
    ensures d.SemiPeriodCounter? && d.valueMax == CounterValueMax && d.edge == Rising
  {
    SemiPeriodCounter(CounterValueMax, s.counterChannel, CounterSource, Rising)
  }

  function ClockUpdate(s: Settings): (c: Call)
  {
    Update(Clock, ClockDescriptorOf(s))
  }

  function CounterUpdate(s: Settings): (c: Call)
  {
    Update(Counter, CounterDescriptorOf(s))
  }

  const ClockTiming: Call := ImplicitTiming(Clock, ContinuousSamples, BufferSize)

  /** The counter task's gate, timebase, timing and read policy, once both tasks hold their channels. */
  function WiringCalls(s: Settings): (calls: seq<Call>)
  {
    [ SemiPeriodTerm(Counter, GateTerminal(s.clockChannel)),
      TimebaseSource(Counter, s.photonChannel),
      ImplicitTiming(Counter, ContinuousSamples, BufferSize),
      RelativeTo(Counter, CurrentReadPosition),
      Offset(Counter, 0),
      Overwrite(Counter, DoNotOverwriteUnreadSamples) ]
  }

  /**
   * Every call `update_tasks` makes; nothing is closed first, and a
   * descriptor the card rejects raises and ends the rebuild there.
   */
  function RebuildCalls(s: Settings, device: set<string>): (calls: seq<Call>)
  {
    if s.clockChannel !in device then [ClockUpdate(s)]
    else if s.counterChannel !in device then [ClockUpdate(s), ClockTiming, CounterUpdate(s)]
    else [ClockUpdate(s), ClockTiming, CounterUpdate(s)] + WiringCalls(s)
  }

  /** What `update_tasks` raises: the clock is updated first, so it is reported first. */
  function RebuildOutcome(s: Settings, device: set<string>): (outcome: Outcome<DriverError>)
    ensures outcome.Pass? <==> ChannelsPresent(s, device)
  {
    if s.clockChannel !in device then Fail(InvalidChannel(s.clockChannel))
    else if s.counterChannel !in device then Fail(InvalidChannel(s.counterChannel))
    else Pass
  }

  /** Every call `grab_data` makes, depending on whether it rebuilds. */
  function GrabCalls(rebuild: bool, s: Settings, device: set<string>): (calls: seq<Call>)
  {
    if !rebuild then [Read(Counter, SamplesPerRead)]
    else if ChannelsPresent(s, device) then RebuildCalls(s, device) + StartBoth + [Read(Counter, SamplesPerRead)]
    else RebuildCalls(s, device)
  }

  /**
   * A rebuild updates the clock first, never closes, creates, starts or reads
   * (`update_task` replaces a slot's task itself), updates the counter only
   * once the clock channel was accepted, and wires the gate to the clock's
   * internal output only when both channels exist.
   */
  lemma RebuildCallsShape(s: Settings, device: set<string>)
    ensures |RebuildCalls(s, device)| > 0 && RebuildCalls(s, device)[0] == ClockUpdate(s)
    ensures forall c :: c in RebuildCalls(s, device) ==> !c.Close? && !c.Create? && !c.Start? && !c.Read?
    ensures CounterUpdate(s) in RebuildCalls(s, device) <==> s.clockChannel in device
    ensures SemiPeriodTerm(Counter, GateTerminal(s.clockChannel)) in RebuildCalls(s, device)
        <==> ChannelsPresent(s, device)
  {
  }

  /**
   * A rebuilding grab replays the rebuild first; the pair is started exactly
   * when the rebuild succeeds, and samples are read exactly when no rebuild
   * was needed or the rebuild succeeded.
   */
  lemma GrabCallsShape(rebuild: bool, s: Settings, device: set<string>)
    ensures rebuild ==> |RebuildCalls(s, device)| <= |GrabCalls(rebuild, s, device)|
    ensures rebuild ==> (GrabCalls(rebuild, s, device)[..|RebuildCalls(s, device)|]
                         == RebuildCalls(s, device))
    ensures Start(Clock) in GrabCalls(rebuild, s, device) <==> rebuild && ChannelsPresent(s, device)
    ensures Read(Counter, SamplesPerRead) in GrabCalls(rebuild, s, device)
        <==> !rebuild || ChannelsPresent(s, device)
  {
    var rebuildCalls := RebuildCalls(s, device);
    RebuildCallsShape(s, device);
    if rebuild && ChannelsPresent(s, device) {
      var tail := StartBoth + [Read(Counter, SamplesPerRead)];
      assert GrabCalls(rebuild, s, device) == rebuildCalls + tail;
      PrefixOfConcat(rebuildCalls, tail);
    }
  }

  predicate Synced(tasks: map<Role, Task>, s: Settings, status: TaskStatus)
  {
    Synchronized(tasks, DescribedChan(ClockDescriptorOf(s)), DescribedChan(CounterDescriptorOf(s)),
                 s.photonChannel, status)
  }

  /** The clock task right after its update and timing: open, holding its channel, timed continuously. */
  function TimedClock(s: Settings): (clock: Task)
  {
    BlankTask.(channel := Some(DescribedChan(ClockDescriptorOf(s))), timing := Some(StreamTiming))
  }

  /** The counter task right after its update: open, holding its channel, nothing else set. */
  function FreshCounter(s: Settings): (counter: Task)
  {
    BlankTask.(channel := Some(DescribedChan(CounterDescriptorOf(s))))
  }

  /** The first three calls of a rebuild that gets through leave the timed clock and the fresh counter. */
  lemma UpdatesRun(device: set<string>, tasks: map<Role, Task>, s: Settings)
    requires ChannelsPresent(s, device)
    ensures Run(device, tasks, [ClockUpdate(s), ClockTiming, CounterUpdate(s)])
         == tasks[Clock := TimedClock(s)][Counter := FreshCounter(s)]
  {
    var u := [ClockUpdate(s), ClockTiming, CounterUpdate(s)];
    assert u[..0] == [];
    RunPrefix(device, tasks, u, 0);
    RunPrefix(device, tasks, u, 1);
    RunPrefix(device, tasks, u, 2);
    assert u[..3] == u;
  }

  /** From the timed clock and the fresh counter, the wiring calls leave the synchronised pair. */
  lemma WiringCallsRun(device: set<string>, tasks: map<Role, Task>, s: Settings)
    requires Clock in tasks && tasks[Clock] == TimedClock(s)
    requires Counter in tasks && tasks[Counter] == FreshCounter(s)
    ensures Synced(Run(device, tasks, WiringCalls(s)), s, Open)
  {
    var w := WiringCalls(s);
    assert w[..0] == [];
    RunPrefix(device, tasks, w, 0);
    RunPrefix(device, tasks, w, 1);
    RunPrefix(device, tasks, w, 2);
    RunPrefix(device, tasks, w, 3);
    RunPrefix(device, tasks, w, 4);
    RunPrefix(device, tasks, w, 5);
    assert w[..6] == w;
  }

  /** The wiring calls, made one at a time, extend a trace by `WiringCalls`. */
  lemma WiringTrace(trace: seq<Call>, s: Settings)
    ensures trace + [SemiPeriodTerm(Counter, GateTerminal(s.clockChannel))]
                  + [TimebaseSource(Counter, s.photonChannel)]
                  + [ImplicitTiming(Counter, ContinuousSamples, BufferSize)]
                  + [RelativeTo(Counter, CurrentReadPosition)]
                  + [Offset(Counter, 0)]
                  + [Overwrite(Counter, DoNotOverwriteUnreadSamples)]
         == trace + WiringCalls(s)
  {
  }

  /** A rebuild that gets through leaves the synchronised pair, open and not yet running, whatever was there. */
  lemma RebuildSynchronizes(device: set<string>, tasks: map<Role, Task>, s: Settings)
    requires ChannelsPresent(s, device)
    ensures Synced(Run(device, tasks, RebuildCalls(s, device)), s, Open)
  {
    var u := [ClockUpdate(s), ClockTiming, CounterUpdate(s)];
    RunConcat(device, tasks, u, WiringCalls(s));
    UpdatesRun(device, tasks, s);
    WiringCallsRun(device, Run(device, tasks, u), s);
  }

  /** A synchronised pair whose channels are on the card names channels the card has. */
  lemma SyncedNeedsChannels(device: set<string>, tasks: map<Role, Task>, s: Settings, status: TaskStatus)
    requires ChannelsOnCard(device, tasks)
    ensures Synced(tasks, s, status) ==> ChannelsPresent(s, device)
  {
    if Synced(tasks, s, status) {
      assert tasks[Clock].channel.value.Name() == s.clockChannel;
      assert tasks[Counter].channel.value.Name() == s.counterChannel;
    }
  }

  /**
   * A rebuild that raises never leaves a synchronised pair behind, provided
   * every channel already held is on the card (as on any card built by the
   * driver, `Card.Valid`).
   */
  lemma FailedRebuildUnsynced(device: set<string>, tasks: map<Role, Task>, s: Settings, status: TaskStatus)
    requires !ChannelsPresent(s, device) && ChannelsOnCard(device, tasks)
    ensures !Synced(Run(device, tasks, RebuildCalls(s, device)), s, status)
  {
    RunKeepsChannelsOnCard(device, tasks, RebuildCalls(s, device));
    SyncedNeedsChannels(device, Run(device, tasks, RebuildCalls(s, device)), s, status);
  }

  /** When the clock's descriptor is rejected, the previous tasks stay exactly as they were. */
  lemma RejectedClockKeepsTasks(device: set<string>, tasks: map<Role, Task>, s: Settings)
    requires s.clockChannel !in device
    ensures Run(device, tasks, RebuildCalls(s, device)) == tasks
  {
    RunSnoc(device, tasks, [], ClockUpdate(s));
    assert [] + [ClockUpdate(s)] == [ClockUpdate(s)];
  }

  /** In every rebuild, the gate is wired to the clock task configured just before. */
  lemma RebuildGateTracksClock(device: set<string>, tasks: map<Role, Task>, s: Settings)
    ensures GateTracksClock(device, tasks, RebuildCalls(s, device))
  {
    var calls := RebuildCalls(s, device);
    if !ChannelsPresent(s, device) {
      assert forall k :: 0 <= k < |calls| ==> !calls[k].SemiPeriodTerm?;
    } else {
      var u := [ClockUpdate(s), ClockTiming, CounterUpdate(s)];
      assert forall k :: 0 <= k < |u| ==> !u[k].SemiPeriodTerm?;
      var t := Run(device, tasks, u);
      UpdatesRun(device, tasks, s);
      var w := WiringCalls(s);
      forall k | 0 <= k < |w| && w[k].SemiPeriodTerm?
        ensures GateMatchesClock(Run(device, t, w[..k]), w[k].term)
      {
        assert k == 0;
        assert w[..0] == [];
      }
      GateTracksConcat(device, tasks, u, w);
    }
  }

  /** The plugin. */
  class Viewer {
    var settings: Settings
    /** The `controller` dict of two driver objects; `null` until `ini_detector`. */
    var controller: Card?
    /** The descriptors last handed to the driver; `None` until the first `update_tasks`. */
    var clockChannel: Option<ChannelDescriptor>
    var counterChannel: Option<ChannelDescriptor>
    /** True during a continuous grab. */
    var live: bool
    var countingTime: real
    var statusLog: seq<StatusMessage>
    var exports: seq<Export>

    ghost predicate Valid()
      reads this, controller
    {
      && ValidSettings(settings)
      && countingTime > 0.0
      && (controller != null ==> controller.Valid())
    }

    /** `ini_attributes`, with the settings tree the host built. */
    constructor (settings: Settings)
      requires ValidSettings(settings)
      ensures Valid() && this.settings == settings && controller == null
      ensures clockChannel == None && counterChannel == None
      ensures !live && countingTime == 0.1 && statusLog == [] && exports == []
    {
      this.settings := settings;
      controller := null;
      clockChannel := None;
      counterChannel := None;
      live := false;
      countingTime := 0.1;
      statusLog := [];
      exports := [];
    }

    /** The counter's gate, timebase, timing and read policy. */
    method WireCounter()
      requires Valid() && controller != null
      requires Clock in controller.tasks && controller.tasks[Clock] == TimedClock(settings)
      requires Counter in controller.tasks && controller.tasks[Counter] == FreshCounter(settings)
      modifies controller
      ensures Valid()
      ensures controller.trace == old(controller.trace) + WiringCalls(settings)
      ensures Synced(controller.tasks, settings, Open)
    {
      var card := controller;
      ghost var tr0 := card.trace;
      card.SetSemiPeriodTerm(Counter, GateTerminal(settings.clockChannel));
      card.SetTimebaseSrc(Counter, settings.photonChannel);
      card.CfgImplicitTiming(Counter, ContinuousSamples, BufferSize);
      card.SetRelativeTo(Counter, CurrentReadPosition);
      card.SetOffset(Counter, 0);
      card.SetOverwrite(Counter, DoNotOverwriteUnreadSamples);
      WiringTrace(tr0, settings);
    }

    /** `update_tasks`: describe both channels, update the clock, then the counter, and wire them. */
    method UpdateTasks() returns (outcome: Outcome<DriverError>)
      requires Valid() && controller != null
      modifies this, controller
      ensures Valid() && controller == old(controller)
      ensures clockChannel == Some(ClockDescriptorOf(settings))
      ensures counterChannel == Some(CounterDescriptorOf(settings))
      ensures settings == old(settings) && live == old(live) && countingTime == old(countingTime)
      ensures statusLog == old(statusLog) && exports == old(exports)
      ensures controller.trace == old(controller.trace) + RebuildCalls(settings, controller.device)
      ensures outcome == RebuildOutcome(settings, controller.device)
      ensures outcome.Pass? ==> Synced(controller.tasks, settings, Open)
      ensures outcome.Fail? ==> !Synced(controller.tasks, settings, Open)
    {
      clockChannel := Some(ClockDescriptorOf(settings));
      counterChannel := Some(CounterDescriptorOf(settings));
      var card := controller;
      ghost var t0, tr0 := card.tasks, card.trace;
      RunKeepsChannelsOnCard(card.device, map[], tr0);
      var ok := card.UpdateTask(Clock, ClockDescriptorOf(settings));
      if !ok {
        RunConcat(card.device, map[], tr0, RebuildCalls(settings, card.device));
        FailedRebuildUnsynced(card.device, t0, settings, Open);
        return Fail(InvalidChannel(settings.clockChannel));
      }
      card.CfgImplicitTiming(Clock, ContinuousSamples, BufferSize);
      ok := card.UpdateTask(Counter, CounterDescriptorOf(settings));
      assert card.trace == tr0 + [ClockUpdate(settings), ClockTiming, CounterUpdate(settings)];
      if !ok {
        RunConcat(card.device, map[], tr0, RebuildCalls(settings, card.device));
        FailedRebuildUnsynced(card.device, t0, settings, Open);
        return Fail(InvalidChannel(settings.counterChannel));
      }
      WireCounter();
      AppendAssoc(tr0, [ClockUpdate(settings), ClockTiming, CounterUpdate(settings)], WiringCalls(settings));
      outcome := Pass;
    }

    /** `ini_detector`: a fresh card, one rebuild, and the zero placeholder in every case. */
    method IniDetector(device: set<string>) returns (info: string, initialized: bool)
      requires Valid()
      modifies this
      ensures Valid() && fresh(controller) && controller.device == device
      ensures controller.trace == RebuildCalls(settings, device)
      ensures initialized == ChannelsPresent(settings, device)
      ensures initialized ==> info == "NI card based PL counter" && countingTime == CountingTime(settings.clockFreq)
      ensures initialized ==> Synced(controller.tasks, settings, Open)
      ensures !initialized ==> info == "Error" && countingTime == old(countingTime)
      ensures clockChannel == Some(ClockDescriptorOf(settings))
      ensures counterChannel == Some(CounterDescriptorOf(settings))
      ensures exports == old(exports) + [Placeholder]
      ensures settings == old(settings) && live == old(live) && statusLog == old(statusLog)
    {
      controller := new Card(device);
      var outcome := UpdateTasks();
      if outcome.Pass? {
        initialized := true;
        info := "NI card based PL counter";
        countingTime := CountingTime(settings.clockFreq);
      } else {
        initialized := false;
        info := "Error";
      }
      exports := exports + [Placeholder];
    }

    /** `close`: the clock's task, then the counter's. */
    method Close()
      requires Valid() && controller != null
      modifies controller
      ensures Valid()
      ensures controller.trace == old(controller.trace) + CloseBoth
      ensures controller.tasks == CloseAll(old(controller.tasks))
    {
      CloseBothClosesAll(controller.device, controller.tasks);
      controller.CloseTask(Clock);
      controller.CloseTask(Counter);
    }

    /** `stop`: close both tasks and leave live mode; always returns the empty string. */
    method Stop() returns (r: string)
      requires Valid() && controller != null
      modifies this, controller
      ensures Valid() && controller == old(controller)
      ensures r == "" && !live
      ensures controller.trace == old(controller.trace) + CloseBoth
      ensures controller.tasks == CloseAll(old(controller.tasks))
      ensures statusLog == old(statusLog) + [AcquisitionStopped]
      ensures settings == old(settings) && countingTime == old(countingTime) && exports == old(exports)
      ensures clockChannel == old(clockChannel) && counterChannel == old(counterChannel)
    {
      Close();
      live := false;
      statusLog := statusLog + [AcquisitionStopped];
      r := "";
    }

    /** `update_tasks` followed, when it succeeds, by starting the clock and then the counter. */
    method RebuildAndStart() returns (outcome: Outcome<DriverError>)
      requires Valid() && controller != null
      modifies this, controller
      ensures Valid() && controller == old(controller)
      ensures clockChannel == Some(ClockDescriptorOf(settings))
      ensures counterChannel == Some(CounterDescriptorOf(settings))
      ensures settings == old(settings) && live == old(live) && countingTime == old(countingTime)
      ensures statusLog == old(statusLog) && exports == old(exports)
      ensures outcome == RebuildOutcome(settings, controller.device)
      ensures controller.trace == old(controller.trace) + RebuildCalls(settings, controller.device)
                                  + (if outcome.Pass? then StartBoth else [])
      ensures outcome.Pass? ==> Synced(controller.tasks, settings, Running)
    {
      outcome := UpdateTasks();
      if outcome.Pass? {
        ghost var tr := controller.trace;
        controller.StartTask(Clock);
        controller.StartTask(Counter);
        assert controller.trace == tr + StartBoth;
      }
    }

    /**
     * `commit_settings`, once the host has stored the changed value: a new
     * clock frequency rescales the counting time and restarts a rebuilt pair;
     * any other key stops the acquisition and rebuilds without starting.
     */
    method CommitSettings(change: Setting) returns (outcome: Outcome<DriverError>)
      requires Valid() && controller != null && ValidSetting(change)
      modifies this, controller
      ensures Valid() && controller == old(controller)
      ensures settings == Apply(old(settings), change)
      ensures outcome == RebuildOutcome(settings, controller.device)
      ensures clockChannel == Some(ClockDescriptorOf(settings))
      ensures counterChannel == Some(CounterDescriptorOf(settings))
      ensures exports == old(exports)
      ensures change.ClockFreq? ==>
        && countingTime == CountingTime(change.hz)
        && live == old(live) && statusLog == old(statusLog)
        && controller.trace == old(controller.trace) + RebuildCalls(settings, controller.device)
                                 + (if outcome.Pass? then StartBoth else [])
        && (outcome.Pass? ==> Synced(controller.tasks, settings, Running))
      ensures !change.ClockFreq? ==>
        && countingTime == old(countingTime)
        && !live && statusLog == old(statusLog) + [AcquisitionStopped]
        && controller.trace == old(controller.trace) + CloseBoth + RebuildCalls(settings, controller.device)
        && (outcome.Pass? ==> Synced(controller.tasks, settings, Open))
    {
      settings := Apply(settings, change);
      if change.ClockFreq? {
        countingTime := CountingTime(change.hz);
        outcome := RebuildAndStart();
      } else {
        var _ := Stop();
        outcome := UpdateTasks();
      }
    }

    /** The read half of `grab_data`: two samples from the counter, converted to rates and emitted. */
    method ReadAndEmit(samples: seq<int>) returns (outcome: Outcome<DriverError>, rates: seq<real>)
      requires Valid() && controller != null && |samples| == SamplesPerRead
      modifies this, controller
      ensures Valid() && controller == old(controller)
      ensures settings == old(settings) && countingTime == old(countingTime) && live == old(live)
      ensures clockChannel == old(clockChannel) && counterChannel == old(counterChannel)
      ensures statusLog == old(statusLog)
      ensures controller.trace == old(controller.trace) + [Read(Counter, SamplesPerRead)]
      ensures controller.tasks == old(controller.tasks)
      ensures outcome == (if Readable(old(controller.tasks), Counter) then Pass else Fail(InvalidTask(Counter)))
      ensures outcome.Pass? ==> rates == Rates(samples, countingTime) && exports == old(exports) + [Export(Final, rates)]
      ensures outcome.Fail? ==> rates == [] && exports == old(exports)
    {
      var ok, readData := controller.ReadSamples(Counter, SamplesPerRead, samples);
      if !ok {
        return Fail(InvalidTask(Counter)), [];
      }
      rates := Rates(readData, countingTime);
      exports := exports + [Export(Final, rates)];
      outcome := Pass;
    }

    /**
     * `grab_data`: rebuild and restart unless already live, read two samples
     * (`samples` is what the hardware delivers), convert and emit them; no
     * status message is sent.
     */
    method GrabData(passed: Option<bool>, samples: seq<int>) returns (outcome: Outcome<DriverError>, rates: seq<real>)
      requires Valid() && controller != null && |samples| == SamplesPerRead
      modifies this, controller
      ensures Valid() && controller == old(controller)
      ensures live == LiveAfter(passed, old(live))
      ensures settings == old(settings) && countingTime == old(countingTime) && statusLog == old(statusLog)
      ensures controller.trace == old(controller.trace) + GrabCalls(Rebuilds(passed, old(live)), settings, controller.device)
      ensures Rebuilds(passed, old(live)) ==> outcome == RebuildOutcome(settings, controller.device)
      ensures !Rebuilds(passed, old(live)) ==>
        && outcome == (if Readable(old(controller.tasks), Counter) then Pass else Fail(InvalidTask(Counter)))
        && controller.tasks == old(controller.tasks)
      ensures Rebuilds(passed, old(live)) && outcome.Pass? ==> Synced(controller.tasks, settings, Running)
      ensures Rebuilds(passed, old(live)) ==>
        clockChannel == Some(ClockDescriptorOf(settings)) && counterChannel == Some(CounterDescriptorOf(settings))
      ensures !Rebuilds(passed, old(live)) ==> clockChannel == old(clockChannel) && counterChannel == old(counterChannel)
      ensures outcome.Pass? ==> rates == Rates(samples, countingTime) && exports == old(exports) + [Export(Final, rates)]
      ensures outcome.Fail? ==> rates == [] && exports == old(exports)
    {
      var update := true;
      if passed.Some? {
        if passed.value == live && live {
          update := false;
        }
        live := passed.value;
      }
      assert update == Rebuilds(passed, old(live));
      ghost var trace0, tasks0 := controller.trace, controller.tasks;
      if update {
        outcome := RebuildAndStart();
        if outcome.Fail? {
          return outcome, [];
        }
      }
      outcome, rates := ReadAndEmit(samples);
      if update {
        ghost var rebuild := RebuildCalls(settings, controller.device);
        AppendAssoc(trace0, rebuild, StartBoth);
        AppendAssoc(trace0, rebuild + StartBoth, [Read(Counter, SamplesPerRead)]);
      }
    }
  }
}
