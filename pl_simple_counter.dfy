/**
 * The "PL simple counter" plugin: it builds both driver tasks itself, the
 * counter task first, and wires the counter's gate to the internal output of
 * the clock channel the driver has just named.
 */
module PLSimpleCounter {
  import opened Wrappers
  import opened Driver
  import opened Terminals
  import opened Conversion
  import opened Acquisition

  const DutyCycle: real := 0.5

  /** The clock channel: a pulse train at `clock_freq` Hz, duty cycle 0.5, idle low, no initial delay. */
  function ClockChannelOf(s: Settings): (clock: Channel)
  {
    PulseChanFreq(s.clockChannel, s.clockFreq, DutyCycle, Low, 0.0)
  }

  /** The counter channel: semi-periods measured in ticks. */
  function CounterChannelOf(s: Settings): (counter: Channel)
  {
    SemiPeriodChan(s.counterChannel, Ticks)
  }

  /** The closes `update_tasks` starts with: the counter's existing task, then the clock's. */
  function CloseExisting(tasks: map<Role, Task>): (calls: seq<Call>)
    ensures forall k :: 0 <= k < |calls| ==> calls[k].Close?
    ensures Close(Counter) in calls <==> Counter in tasks
    ensures Close(Clock) in calls <==> Clock in tasks
    ensures |calls| <= 2
    ensures Counter in tasks ==> |calls| > 0 && calls[0] == Close(Counter)
  {
    (if Counter in tasks then [Close(Counter)] else []) + (if Clock in tasks then [Close(Clock)] else [])
  }

  /** The counter task and its semi-period channel, created first. */
  function CounterCalls(s: Settings): (calls: seq<Call>)
  {
    [Create(Counter), SemiPeriodChannel(Counter, s.counterChannel, Ticks)]
  }

  /** The clock task and its pulse channel. */
  function ClockCalls(s: Settings): (calls: seq<Call>)
  {
    [Create(Clock), PulseChannel(Clock, s.clockChannel, s.clockFreq, DutyCycle, Low, 0.0)]
  }

  /** Timing, wiring and read policy, once both channels exist. */
  function WiringCalls(s: Settings): (calls: seq<Call>)
  {
    [ ImplicitTiming(Clock, ContinuousSamples, BufferSize),
      SemiPeriodTerm(Counter, GateTerminal(s.clockChannel)),
      TimebaseSource(Counter, s.photonChannel),
      ImplicitTiming(Counter, ContinuousSamples, BufferSize),
      RelativeTo(Counter, CurrentReadPosition),
      Offset(Counter, 0),
      Overwrite(Counter, DoNotOverwriteUnreadSamples) ]
  }

  /**
   * Every call `update_tasks` makes on a card holding `tasks`; a channel the
   * card rejects raises and ends the rebuild there.
   */
  function RebuildCalls(tasks: map<Role, Task>, s: Settings, device: set<string>): (calls: seq<Call>)
  {
    if s.counterChannel !in device then CloseExisting(tasks) + CounterCalls(s)
    else if s.clockChannel !in device then CloseExisting(tasks) + CounterCalls(s) + ClockCalls(s)
    else CloseExisting(tasks) + CounterCalls(s) + ClockCalls(s) + WiringCalls(s)
  }

  /** What `update_tasks` raises: the counter channel is added first, so it is reported first. */
  function RebuildOutcome(s: Settings, device: set<string>): (outcome: Outcome<DriverError>)
    ensures outcome.Pass? <==> ChannelsPresent(s, device)
  {
    if s.counterChannel !in device then Fail(InvalidChannel(s.counterChannel))
    else if s.clockChannel !in device then Fail(InvalidChannel(s.clockChannel))
    else Pass
  }

  /** Every call `grab_data` makes, depending on whether it rebuilds. */
  function GrabCalls(rebuild: bool, tasks: map<Role, Task>, s: Settings, device: set<string>): (calls: seq<Call>)
  {
    if !rebuild then [Read(Counter, SamplesPerRead)]
    else if ChannelsPresent(s, device) then RebuildCalls(tasks, s, device) + StartBoth + [Read(Counter, SamplesPerRead)]
    else RebuildCalls(tasks, s, device)
  }

  /** A rebuild starts by closing what the card holds, counter first. */
  lemma RebuildClosesFirst(tasks: map<Role, Task>, s: Settings, device: set<string>)
    ensures |CloseExisting(tasks)| < |RebuildCalls(tasks, s, device)|
    ensures RebuildCalls(tasks, s, device)[..|CloseExisting(tasks)|] == CloseExisting(tasks)
  {
    var closes := CloseExisting(tasks);
    var rest;
    if s.counterChannel !in device {
      rest := CounterCalls(s);
    } else if s.clockChannel !in device {
      rest := CounterCalls(s) + ClockCalls(s);
      AppendAssoc(closes, CounterCalls(s), ClockCalls(s));
    } else {
      rest := CounterCalls(s) + ClockCalls(s) + WiringCalls(s);
      AppendAssoc(closes, CounterCalls(s), ClockCalls(s));
      AppendAssoc(closes, CounterCalls(s) + ClockCalls(s), WiringCalls(s));
    }
    assert RebuildCalls(tasks, s, device) == closes + rest;
    PrefixOfConcat(closes, rest);
  }

  /**
   * A rebuild never starts or reads, creates the clock task only once the
   * counter channel was accepted, and wires the gate to the clock's internal
   * output only when both channels exist.
   */
  lemma RebuildCallsShape(tasks: map<Role, Task>, s: Settings, device: set<string>)
    ensures forall c :: c in RebuildCalls(tasks, s, device) ==> !c.Start? && !c.Read?
    ensures Create(Clock) in RebuildCalls(tasks, s, device) <==> s.counterChannel in device
    ensures SemiPeriodTerm(Counter, GateTerminal(s.clockChannel)) in RebuildCalls(tasks, s, device)
        <==> ChannelsPresent(s, device)
  {
    var closes := CloseExisting(tasks);
    assert forall c :: c in closes ==> c.Close?;
    var calls := RebuildCalls(tasks, s, device);
    if s.counterChannel !in device {
      assert calls == closes + CounterCalls(s);
    } else if s.clockChannel !in device {
      assert calls == closes + CounterCalls(s) + ClockCalls(s);
    } else {
      assert calls == closes + CounterCalls(s) + ClockCalls(s) + WiringCalls(s);
    }
  }

  /**
   * A rebuilding grab replays the rebuild first; the pair is started exactly
   * when the rebuild succeeds, and samples are read exactly when no rebuild
   * was needed or the rebuild succeeded.
   */
  lemma GrabCallsShape(rebuild: bool, tasks: map<Role, Task>, s: Settings, device: set<string>)
    ensures rebuild ==> |RebuildCalls(tasks, s, device)| <= |GrabCalls(rebuild, tasks, s, device)|
    ensures rebuild ==> (GrabCalls(rebuild, tasks, s, device)[..|RebuildCalls(tasks, s, device)|]
                         == RebuildCalls(tasks, s, device))
    ensures Start(Clock) in GrabCalls(rebuild, tasks, s, device) <==> rebuild && ChannelsPresent(s, device)
    ensures Read(Counter, SamplesPerRead) in GrabCalls(rebuild, tasks, s, device)
        <==> !rebuild || ChannelsPresent(s, device)
  {
    var rebuildCalls := RebuildCalls(tasks, s, device);
    RebuildCallsShape(tasks, s, device);
    if rebuild && ChannelsPresent(s, device) {
      var tail := StartBoth + [Read(Counter, SamplesPerRead)];
      assert GrabCalls(rebuild, tasks, s, device) == rebuildCalls + tail;
      assert (rebuildCalls + tail)[..|rebuildCalls|] == rebuildCalls;
    }
  }

  /** Closing the counter's slot and then the clock's closes every task and removes none. */
  lemma CounterThenClockClosesAll(device: set<string>, tasks: map<Role, Task>)
    ensures Step(device, Step(device, tasks, Close(Counter)), Close(Clock)) == CloseAll(tasks)
  {
    var mid := Step(device, tasks, Close(Counter));
    var both := Step(device, mid, Close(Clock));
    var all := CloseAll(tasks);
    forall r: Role
      ensures (r in both <==> r in all) && (r in both ==> both[r] == all[r])
    {
      if r in tasks {
        assert r in mid && mid[r] == (if r == Counter then tasks[r].(status := Closed) else tasks[r]);
      }
    }
    assert both == all;
  }

  /** Closing the tasks the card holds, counter first, leaves every one of them closed. */
  lemma CloseExistingClosesAll(device: set<string>, tasks: map<Role, Task>)
    ensures Run(device, tasks, CloseExisting(tasks)) == CloseAll(tasks)
  {
    // Closing an empty slot changes nothing, so the skipped closes would not matter.
    CounterThenClockClosesAll(device, tasks);
    var closes := CloseExisting(tasks);
    if Counter in tasks && Clock in tasks {
      assert closes == [Close(Counter), Close(Clock)];
      RunPair(device, tasks, Close(Counter), Close(Clock));
    } else if Counter in tasks {
      assert closes == [] + [Close(Counter)];
      RunSnoc(device, tasks, [], Close(Counter));
      assert Clock !in Step(device, tasks, Close(Counter));
    } else if Clock in tasks {
      assert closes == [] + [Close(Clock)];
      RunSnoc(device, tasks, [], Close(Clock));
      assert Step(device, tasks, Close(Counter)) == tasks;
    } else {
      assert closes == [];
      assert Step(device, tasks, Close(Counter)) == tasks;
    }
  }

  predicate Synced(tasks: map<Role, Task>, s: Settings, status: TaskStatus)
  {
    Synchronized(tasks, ClockChannelOf(s), CounterChannelOf(s), s.photonChannel, status)
  }

  /** The counter calls leave a new counter task, holding its channel if the card has it. */
  lemma CounterCallsRun(device: set<string>, tasks: map<Role, Task>, s: Settings)
    ensures Run(device, tasks, CounterCalls(s))
         == tasks[Counter := if s.counterChannel in device then BlankTask.(channel := Some(CounterChannelOf(s))) else BlankTask]
  {
    RunPair(device, tasks, Create(Counter), SemiPeriodChannel(Counter, s.counterChannel, Ticks));
  }

  /** The clock calls leave a new clock task, holding its channel if the card has it. */
  lemma ClockCallsRun(device: set<string>, tasks: map<Role, Task>, s: Settings)
    ensures Run(device, tasks, ClockCalls(s))
         == tasks[Clock := if s.clockChannel in device then BlankTask.(channel := Some(ClockChannelOf(s))) else BlankTask]
  {
    RunPair(device, tasks, Create(Clock), PulseChannel(Clock, s.clockChannel, s.clockFreq, DutyCycle, Low, 0.0));
  }

  /** From two new tasks holding their channels, the wiring calls leave the synchronised pair. */
  lemma WiringCallsRun(device: set<string>, tasks: map<Role, Task>, s: Settings)
    requires Clock in tasks && tasks[Clock] == BlankTask.(channel := Some(ClockChannelOf(s)))
    requires Counter in tasks && tasks[Counter] == BlankTask.(channel := Some(CounterChannelOf(s)))
    ensures Synced(Run(device, tasks, WiringCalls(s)), s, Open)
  {
    var w := WiringCalls(s);
    assert w[..0] == [];
    RunPrefix(device, tasks, w, 0);
    RunPrefix(device, tasks, w, 1);
    RunPrefix(device, tasks, w, 2);
    RunPrefix(device, tasks, w, 3);
    RunPrefix(device, tasks, w, 4);
    RunPrefix(device, tasks, w, 5);
    RunPrefix(device, tasks, w, 6);
    assert w[..7] == w;
  }

  /** The wiring calls, made one at a time, extend a trace by `WiringCalls`. */
  lemma WiringTrace(trace: seq<Call>, s: Settings)
    ensures trace + [ImplicitTiming(Clock, ContinuousSamples, BufferSize)]
                  + [SemiPeriodTerm(Counter, GateTerminal(s.clockChannel))]
                  + [TimebaseSource(Counter, s.photonChannel)]
                  + [ImplicitTiming(Counter, ContinuousSamples, BufferSize)]
                  + [RelativeTo(Counter, CurrentReadPosition)]
                  + [Offset(Counter, 0)]
                  + [Overwrite(Counter, DoNotOverwriteUnreadSamples)]
         == trace + WiringCalls(s)
  {
  }

  /** A rebuild that gets through leaves the synchronised pair, open and not yet running. */
  lemma RebuildSynchronizes(device: set<string>, tasks: map<Role, Task>, s: Settings)
    requires ChannelsPresent(s, device)
    ensures Synced(Run(device, tasks, RebuildCalls(tasks, s, device)), s, Open)
  {
    var closes := CloseExisting(tasks);
    var t0 := Run(device, tasks, closes);
    var t1 := Run(device, t0, CounterCalls(s));
    var t2 := Run(device, t1, ClockCalls(s));
    assert RebuildCalls(tasks, s, device) == closes + CounterCalls(s) + ClockCalls(s) + WiringCalls(s);
    RunConcat(device, tasks, closes, CounterCalls(s));
    RunConcat(device, tasks, closes + CounterCalls(s), ClockCalls(s));
    RunConcat(device, tasks, closes + CounterCalls(s) + ClockCalls(s), WiringCalls(s));
    CounterCallsRun(device, t0, s);
    ClockCallsRun(device, t1, s);
    WiringCallsRun(device, t2, s);
  }

  /** A rebuild that raises never leaves a synchronised pair behind. */
  lemma FailedRebuildUnsynced(device: set<string>, tasks: map<Role, Task>, s: Settings, status: TaskStatus)
    requires !ChannelsPresent(s, device)
    ensures !Synced(Run(device, tasks, RebuildCalls(tasks, s, device)), s, status)
  {
    var closes := CloseExisting(tasks);
    var t0 := Run(device, tasks, closes);
    var t1 := Run(device, t0, CounterCalls(s));
    RunConcat(device, tasks, closes, CounterCalls(s));
    CounterCallsRun(device, t0, s);
    if s.counterChannel in device {
      assert RebuildCalls(tasks, s, device) == closes + CounterCalls(s) + ClockCalls(s);
      RunConcat(device, tasks, closes + CounterCalls(s), ClockCalls(s));
      ClockCallsRun(device, t1, s);
    } else {
      assert RebuildCalls(tasks, s, device) == closes + CounterCalls(s);
    }
  }

  /** In every rebuild, the gate is wired to the freshly created clock task's channel. */
  lemma RebuildGateTracksClock(device: set<string>, tasks: map<Role, Task>, s: Settings)
    ensures GateTracksClock(device, tasks, RebuildCalls(tasks, s, device))
  {
    var closes := CloseExisting(tasks);
    var front := closes + CounterCalls(s);
    if !ChannelsPresent(s, device) {
      var calls := RebuildCalls(tasks, s, device);
      assert forall k :: 0 <= k < |calls| ==> !calls[k].SemiPeriodTerm?;
    } else {
      var t1 := Run(device, tasks, front);
      var front2 := front + ClockCalls(s);
      assert forall k :: 0 <= k < |front2| ==> !front2[k].SemiPeriodTerm?;
      var t2 := Run(device, tasks, front2);
      RunConcat(device, tasks, front, ClockCalls(s));
      ClockCallsRun(device, t1, s);
      var w := WiringCalls(s);
      forall k | 0 <= k < |w| && w[k].SemiPeriodTerm?
        ensures GateMatchesClock(Run(device, t2, w[..k]), w[k].term)
      {
        assert k == 1;
        assert w[..0] == [];
        RunPrefix(device, t2, w, 0);
      }
      assert RebuildCalls(tasks, s, device) == front2 + w;
      GateTracksConcat(device, tasks, front2, w);
    }
  }

  /** The plugin. */
  class Viewer {
    var settings: Settings
    /** The `controller` dict of two driver objects; `null` until `ini_detector`. */
    var controller: Card?
    /** True during a continuous grab. */
    var live: bool
    var countingTime: real
    var statusLog: seq<StatusMessage>
    var exports: seq<Export>

    ghost predicate Valid()
      reads this, controller
    {
      && ValidSettings(settings)
      && countingTime > 0.0
      && (controller != null ==> controller.Valid())
    }

    /** `ini_attributes`, with the settings tree the host built. */
    constructor (settings: Settings)
      requires ValidSettings(settings)
      ensures Valid() && this.settings == settings && controller == null
      ensures !live && countingTime == 0.1 && statusLog == [] && exports == []
    {
      this.settings := settings;
      controller := null;
      live := false;
      countingTime := 0.1;
      statusLog := [];
      exports := [];
    }

    /** The first part of `update_tasks`: close the counter's existing task, then the clock's. */
    method CloseExistingTasks()
      requires Valid() && controller != null
      modifies controller
      ensures Valid()
      ensures controller.trace == old(controller.trace) + CloseExisting(old(controller.tasks))
      ensures controller.tasks.Keys == old(controller.tasks).Keys
    {
      var card := controller;
      if Counter in card.tasks {
        card.CloseTask(Counter);
      }
      if Clock in card.tasks {
        card.CloseTask(Clock);
      }
    }

    /** A new counter task with its semi-period channel in ticks; raises if the card lacks the channel. */
    method AddCounterTask() returns (ok: bool)
      requires Valid() && controller != null
      modifies controller
      ensures Valid()
      ensures controller.trace == old(controller.trace) + CounterCalls(settings)
      ensures ok == (settings.counterChannel in controller.device)
      ensures controller.tasks == old(controller.tasks)[Counter :=
                if ok then BlankTask.(channel := Some(CounterChannelOf(settings))) else BlankTask]
    {
      controller.CreateTask(Counter);
      ok := controller.AddSemiPeriodChan(Counter, settings.counterChannel, Ticks);
    }

    /** A new clock task with its pulse channel; returns the name the driver gives the channel. */
    method AddClockTask() returns (ok: bool, name: string)
      requires Valid() && controller != null
      modifies controller
      ensures Valid()
      ensures controller.trace == old(controller.trace) + ClockCalls(settings)
      ensures ok == (settings.clockChannel in controller.device)
      ensures ok ==> name == settings.clockChannel
      ensures controller.tasks == old(controller.tasks)[Clock :=
                if ok then BlankTask.(channel := Some(ClockChannelOf(settings))) else BlankTask]
    {
      controller.CreateTask(Clock);
      ok, name := controller.AddPulseChanFreq(Clock, settings.clockChannel, settings.clockFreq, DutyCycle, Low, 0.0);
    }

    /** Timing of both tasks, the counter's gate and timebase, and its read policy. */
    method WireTasks(clockName: string)
      requires Valid() && controller != null && clockName == settings.clockChannel
      requires Clock in controller.tasks && controller.tasks[Clock] == BlankTask.(channel := Some(ClockChannelOf(settings)))
      requires Counter in controller.tasks && controller.tasks[Counter] == BlankTask.(channel := Some(CounterChannelOf(settings)))
      modifies controller
      ensures Valid()
      ensures controller.trace == old(controller.trace) + WiringCalls(settings)
      ensures Synced(controller.tasks, settings, Open)
    {
      var card := controller;
      ghost var tr0 := card.trace;
      card.CfgImplicitTiming(Clock, ContinuousSamples, BufferSize);
      card.SetSemiPeriodTerm(Counter, GateTerminal(clockName));
      card.SetTimebaseSrc(Counter, settings.photonChannel);
      card.CfgImplicitTiming(Counter, ContinuousSamples, BufferSize);
      card.SetRelativeTo(Counter, CurrentReadPosition);
      card.SetOffset(Counter, 0);
      card.SetOverwrite(Counter, DoNotOverwriteUnreadSamples);
      WiringTrace(tr0, settings);
    }

    /** `update_tasks`: close what exists, then build and wire both tasks from the settings. */
    method UpdateTasks() returns (outcome: Outcome<DriverError>)
      requires Valid() && controller != null
      modifies controller
      ensures Valid()
      ensures controller.trace == old(controller.trace) + RebuildCalls(old(controller.tasks), settings, controller.device)
      ensures outcome == RebuildOutcome(settings, controller.device)
      ensures outcome.Pass? ==> Synced(controller.tasks, settings, Open)
      ensures outcome.Fail? ==> !Synced(controller.tasks, settings, Open)
    {
      ghost var t0, tr0 := controller.tasks, controller.trace;
      ghost var closes := CloseExisting(t0);
      CloseExistingTasks();
      var ok := AddCounterTask();
      AppendAssoc(tr0, closes, CounterCalls(settings));
      if !ok {
        RunConcat(controller.device, map[], tr0, RebuildCalls(t0, settings, controller.device));
        FailedRebuildUnsynced(controller.device, t0, settings, Open);
        return Fail(InvalidChannel(settings.counterChannel));
      }
      var name;
      ok, name := AddClockTask();
      AppendAssoc(tr0, closes + CounterCalls(settings), ClockCalls(settings));
      if !ok {
        RunConcat(controller.device, map[], tr0, RebuildCalls(t0, settings, controller.device));
        FailedRebuildUnsynced(controller.device, t0, settings, Open);
        return Fail(InvalidChannel(settings.clockChannel));
      }
      WireTasks(name);
      AppendAssoc(tr0, closes + CounterCalls(settings) + ClockCalls(settings), WiringCalls(settings));
      outcome := Pass;
    }

    /** `ini_detector`: a fresh card, one rebuild, and the zero placeholder in every case. */
    method IniDetector(device: set<string>) returns (info: string, initialized: bool)
      requires Valid()
      modifies this
      ensures Valid() && fresh(controller) && controller.device == device
      ensures controller.trace == RebuildCalls(map[], settings, device)
      ensures initialized == ChannelsPresent(settings, device)
      ensures initialized ==> info == "NI card based PL counter" && countingTime == CountingTime(settings.clockFreq)
      ensures initialized ==> Synced(controller.tasks, settings, Open)
      ensures !initialized ==> info == "Error" && countingTime == old(countingTime)
      ensures exports == old(exports) + [Placeholder]
      ensures settings == old(settings) && live == old(live) && statusLog == old(statusLog)
    {
      controller := new Card(device);
      var outcome := UpdateTasks();
      if outcome.Pass? {
        initialized := true;
        info := "NI card based PL counter";
        countingTime := CountingTime(settings.clockFreq);
      } else {
        initialized := false;
        info := "Error";
      }
      exports := exports + [Placeholder];
    }

    /** `close`: the clock's task, then the counter's. */
    method Close()
      requires Valid() && controller != null
      modifies controller
      ensures Valid()
      ensures controller.trace == old(controller.trace) + CloseBoth
      ensures controller.tasks == CloseAll(old(controller.tasks))
    {
      CloseBothClosesAll(controller.device, controller.tasks);
      controller.CloseTask(Clock);
      controller.CloseTask(Counter);
    }

    /** `stop`: close both tasks and leave live mode; always returns the empty string. */
    method Stop() returns (r: string)
      requires Valid() && controller != null
      modifies this, controller
      ensures Valid() && controller == old(controller)
      ensures r == "" && !live
      ensures controller.trace == old(controller.trace) + CloseBoth
      ensures controller.tasks == CloseAll(old(controller.tasks))
      ensures statusLog == old(statusLog) + [AcquisitionStopped]
      ensures settings == old(settings) && countingTime == old(countingTime) && exports == old(exports)
    {
      Close();
      live := false;
      statusLog := statusLog + [AcquisitionStopped];
      r := "";
    }

    /** `update_tasks` followed, when it succeeds, by starting the clock and then the counter. */
    method RebuildAndStart() returns (outcome: Outcome<DriverError>)
      requires Valid() && controller != null
      modifies controller
      ensures Valid()
      ensures outcome == RebuildOutcome(settings, controller.device)
      ensures controller.trace == old(controller.trace) + RebuildCalls(old(controller.tasks), settings, controller.device)
                                  + (if outcome.Pass? then StartBoth else [])
      ensures outcome.Pass? ==> Synced(controller.tasks, settings, Running)
    {
      outcome := UpdateTasks();
      if outcome.Pass? {
        ghost var tr := controller.trace;
        controller.StartTask(Clock);
        controller.StartTask(Counter);
        assert controller.trace == tr + StartBoth;
      }
    }

    /**
     * `commit_settings`, once the host has stored the changed value: a new
     * clock frequency rescales the counting time and restarts a rebuilt pair;
     * any other key stops the acquisition and rebuilds without starting.
     */
    method CommitSettings(change: Setting) returns (outcome: Outcome<DriverError>)
      requires Valid() && controller != null && ValidSetting(change)
      modifies this, controller
      ensures Valid() && controller == old(controller)
      ensures settings == Apply(old(settings), change)
      ensures outcome == RebuildOutcome(settings, controller.device)
      ensures exports == old(exports)
      ensures change.ClockFreq? ==>
        && countingTime == CountingTime(change.hz)
        && live == old(live) && statusLog == old(statusLog)
        && controller.trace == old(controller.trace) + RebuildCalls(old(controller.tasks), settings, controller.device)
                                 + (if outcome.Pass? then StartBoth else [])
        && (outcome.Pass? ==> Synced(controller.tasks, settings, Running))
      ensures !change.ClockFreq? ==>
        && countingTime == old(countingTime)
        && !live && statusLog == old(statusLog) + [AcquisitionStopped]
        && controller.trace == old(controller.trace) + CloseBoth
                                 + RebuildCalls(old(controller.tasks), settings, controller.device)
        && (outcome.Pass? ==> Synced(controller.tasks, settings, Open))
    {
      settings := Apply(settings, change);
      if change.ClockFreq? {
        countingTime := CountingTime(change.hz);
        outcome := RebuildAndStart();
      } else {
        ghost var t0 := controller.tasks;
        var _ := Stop();
        assert CloseExisting(controller.tasks) == CloseExisting(t0);
        outcome := UpdateTasks();
      }
    }

    /** The read half of `grab_data`: two samples from the counter, converted to rates and emitted. */
    method ReadAndEmit(samples: seq<int>) returns (outcome: Outcome<DriverError>, rates: seq<real>)
      requires Valid() && controller != null && |samples| == SamplesPerRead
      modifies this, controller
      ensures Valid() && controller == old(controller)
      ensures settings == old(settings) && countingTime == old(countingTime) && live == old(live)
      ensures controller.trace == old(controller.trace) + [Read(Counter, SamplesPerRead)]
      ensures controller.tasks == old(controller.tasks)
      ensures outcome == (if Readable(old(controller.tasks), Counter) then Pass else Fail(InvalidTask(Counter)))
      ensures outcome.Pass? ==>
        && rates == Rates(samples, countingTime)
        && statusLog == old(statusLog) + [DataOutput(rates)]
        && exports == old(exports) + [Export(Final, rates)]
      ensures outcome.Fail? ==> rates == [] && statusLog == old(statusLog) && exports == old(exports)
    {
      var ok, readData := controller.ReadSamples(Counter, SamplesPerRead, samples);
      if !ok {
        return Fail(InvalidTask(Counter)), [];
      }
      rates := Rates(readData, countingTime);
      statusLog := statusLog + [DataOutput(rates)];
      exports := exports + [Export(Final, rates)];
      outcome := Pass;
    }

    /**
     * `grab_data`: rebuild and restart unless already live, read two samples
     * (`samples` is what the hardware delivers), convert and emit them.
     */
    method GrabData(passed: Option<bool>, samples: seq<int>) returns (outcome: Outcome<DriverError>, rates: seq<real>)
      requires Valid() && controller != null && |samples| == SamplesPerRead
      modifies this, controller
      ensures Valid() && controller == old(controller)
      ensures live == LiveAfter(passed, old(live))
      ensures settings == old(settings) && countingTime == old(countingTime)
      ensures controller.trace == old(controller.trace)
                                  + GrabCalls(Rebuilds(passed, old(live)), old(controller.tasks), settings, controller.device)
      ensures Rebuilds(passed, old(live)) ==> outcome == RebuildOutcome(settings, controller.device)
      ensures !Rebuilds(passed, old(live)) ==>
        && outcome == (if Readable(old(controller.tasks), Counter) then Pass else Fail(InvalidTask(Counter)))
        && controller.tasks == old(controller.tasks)
      ensures Rebuilds(passed, old(live)) && outcome.Pass? ==> Synced(controller.tasks, settings, Running)
      ensures outcome.Pass? ==>
        && rates == Rates(samples, countingTime)
        && statusLog == old(statusLog) + [DataOutput(rates)]
        && exports == old(exports) + [Export(Final, rates)]
      ensures outcome.Fail? ==> rates == [] && statusLog == old(statusLog) && exports == old(exports)
    {
      var update := true;
      if passed.Some? {
        if passed.value == live && live {
          update := false;
        }
        live := passed.value;
      }
      assert update == Rebuilds(passed, old(live));
      ghost var trace0, tasks0 := controller.trace, controller.tasks;
      if update {
        outcome := RebuildAndStart();
        if outcome.Fail? {
          return outcome, [];
        }
      }
      outcome, rates := ReadAndEmit(samples);
      if update {
        ghost var rebuild := RebuildCalls(tasks0, settings, controller.device);
        AppendAssoc(trace0, rebuild, StartBoth);
        AppendAssoc(trace0, rebuild + StartBoth, [Read(Counter, SamplesPerRead)]);
      }
    }
  }
}
