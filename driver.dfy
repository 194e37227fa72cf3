/**
 * Abstract National-Instruments card. Each of the plugin's two named
 * controller slots ("clock", "counter") holds at most one driver task; the
 * card records every driver call in an append-only trace, and the task state
 * is at all times the result of replaying that trace (`Run`).
 */
module Driver {
  import opened Wrappers

  datatype Role = Clock | Counter
  datatype Level = Low | High
  datatype Edge = Rising | Falling
  datatype TimeUnits = Seconds | Ticks
  /** The class of hardware resource a descriptor asks for (`DAQ_NIDAQ_source.Counter`). */
  datatype SourceKind = CounterSource
  datatype SampleMode = FiniteSamples | ContinuousSamples
  datatype ReadRelativeTo = FirstSample | CurrentReadPosition | MostRecentSample
  datatype OverwriteMode = OverwriteUnreadSamples | DoNotOverwriteUnreadSamples

  /** Channel descriptors handed to the driver's `update_task`. */
  datatype ChannelDescriptor =
    | ClockCounter(clockFrequency: real, name: string, source: SourceKind)
    | SemiPeriodCounter(valueMax: real, name: string, source: SourceKind, edge: Edge)

  /** The channel a task holds. */
  datatype Channel =
    | SemiPeriodChan(physical: string, units: TimeUnits)
    | PulseChanFreq(physical: string, freq: real, dutyCycle: real, idleState: Level, initialDelay: real)
    | DescribedChan(descriptor: ChannelDescriptor)
  {
    /** The driver names a channel after the physical counter it occupies. */
    function Name(): (name: string)
    {
      match this
      case SemiPeriodChan(p, _) => p
      case PulseChanFreq(p, _, _, _, _) => p
      case DescribedChan(d) => d.name
    }
  }

  datatype Timing = Timing(mode: SampleMode, samplesPerChannel: nat)

  datatype TaskStatus = Open | Running | Closed

  /** A driver task: its life-cycle state, its channel and the properties set on it. */
  datatype Task = Task(
    status: TaskStatus,
    channel: Option<Channel>,
    timing: Option<Timing>,
    semiPeriodTerm: Option<string>,
    timebaseSrc: Option<string>,
    relativeTo: Option<ReadRelativeTo>,
    offset: Option<int>,
    overwrite: Option<OverwriteMode>)

  /** A freshly created task: open, without channel or properties. */
  const BlankTask: Task := Task(Open, None, None, None, None, None, None, None)

  /** One driver call, as recorded in the card's trace. */
  datatype Call =
    | Close(role: Role)
    | Create(role: Role)
    | SemiPeriodChannel(role: Role, physical: string, units: TimeUnits)
    | PulseChannel(role: Role, physical: string, freq: real, dutyCycle: real, idleState: Level, initialDelay: real)
    | Update(role: Role, descriptor: ChannelDescriptor)
    | ImplicitTiming(role: Role, mode: SampleMode, samplesPerChannel: nat)
    | SemiPeriodTerm(role: Role, term: string)
    | TimebaseSource(role: Role, src: string)
    | RelativeTo(role: Role, relativeTo: ReadRelativeTo)
    | Offset(role: Role, offset: int)
    | Overwrite(role: Role, overwrite: OverwriteMode)
    | Start(role: Role)
    | Read(role: Role, samplesPerChannel: nat)

  /** Why a driver call raised. */
  datatype DriverError = InvalidChannel(name: string) | InvalidTask(role: Role)

  /** The task in slot `r` exists and is open, so it can be configured or started. */
  predicate Editable(tasks: map<Role, Task>, r: Role)
  {
    r in tasks && tasks[r].status == Open
  }

  /** A channel on physical counter `physical` can be added to the task in slot `r`. */
  predicate CanAddChannel(device: set<string>, tasks: map<Role, Task>, r: Role, physical: string)
  {
    Editable(tasks, r) && physical in device
  }

  /** Samples can be read from the task in slot `r`: it exists, is not closed and has a channel. */
  predicate Readable(tasks: map<Role, Task>, r: Role)
  {
    r in tasks && tasks[r].status != Closed && tasks[r].channel.Some?
  }

  /** Every task closed, none removed (what closing both slots leaves behind). */
  function CloseAll(tasks: map<Role, Task>): (closed: map<Role, Task>)
  {
    map r | r in tasks :: tasks[r].(status := Closed)
  }

  /** The effect of one driver call on the card's tasks. A call that raises changes nothing. */
  function Step(device: set<string>, tasks: map<Role, Task>, c: Call): (after: map<Role, Task>)
  {
    match c
    case Close(r) =>
      if r in tasks then tasks[r := tasks[r].(status := Closed)] else tasks
    case Create(r) =>
      tasks[r := BlankTask]
    case SemiPeriodChannel(r, p, u) =>
      if CanAddChannel(device, tasks, r, p)
      then tasks[r := tasks[r].(channel := Some(SemiPeriodChan(p, u)))] else tasks
    case PulseChannel(r, p, f, d, i, delay) =>
      if CanAddChannel(device, tasks, r, p)
      then tasks[r := tasks[r].(channel := Some(PulseChanFreq(p, f, d, i, delay)))] else tasks
    case Update(r, desc) =>
      if desc.name in device
      then tasks[r := BlankTask.(channel := Some(DescribedChan(desc)))] else tasks
    case ImplicitTiming(r, m, n) =>
      if Editable(tasks, r) then tasks[r := tasks[r].(timing := Some(Timing(m, n)))] else tasks
    case SemiPeriodTerm(r, term) =>
      if Editable(tasks, r) then tasks[r := tasks[r].(semiPeriodTerm := Some(term))] else tasks
    case TimebaseSource(r, src) =>
      if Editable(tasks, r) then tasks[r := tasks[r].(timebaseSrc := Some(src))] else tasks
    case RelativeTo(r, rel) =>
      if Editable(tasks, r) then tasks[r := tasks[r].(relativeTo := Some(rel))] else tasks
    case Offset(r, off) =>
      if Editable(tasks, r) then tasks[r := tasks[r].(offset := Some(off))] else tasks
    case Overwrite(r, mode) =>
      if Editable(tasks, r) then tasks[r := tasks[r].(overwrite := Some(mode))] else tasks
    case Start(r) =>
      if Editable(tasks, r) then tasks[r := tasks[r].(status := Running)] else tasks
    case Read(_, _) =>
      tasks
  }

  /** The tasks after replaying `calls`, in order, from `tasks`. */
  function Run(device: set<string>, tasks: map<Role, Task>, calls: seq<Call>): (after: map<Role, Task>)
    decreases |calls|
  {
    if calls == [] then tasks
    else Step(device, Run(device, tasks, calls[..|calls| - 1]), calls[|calls| - 1])
  }

  /** No call of `calls` addresses slot `r`. */
  predicate Untouched(calls: seq<Call>, r: Role)
  {
    forall k :: 0 <= k < |calls| ==> calls[k].role != r
  }

  /** A call touches only its own slot: it never removes a task, adds one only by creating or updating, and leaves the other slot as it was. */
  lemma StepFrame(device: set<string>, tasks: map<Role, Task>, c: Call)
    ensures tasks.Keys <= Step(device, tasks, c).Keys <= tasks.Keys + {c.role}
    ensures c.role !in tasks && !c.Create? && !c.Update? ==> Step(device, tasks, c) == tasks
    ensures forall r :: r in tasks && r != c.role ==> Step(device, tasks, c)[r] == tasks[r]
  {
  }

  /** Replaying calls never removes a task, and a slot no call addresses keeps its task unchanged. */
  lemma {:induction false} RunFrame(device: set<string>, tasks: map<Role, Task>, calls: seq<Call>, r: Role)
    ensures tasks.Keys <= Run(device, tasks, calls).Keys
    ensures r in tasks && Untouched(calls, r) ==> Run(device, tasks, calls)[r] == tasks[r]
    decreases |calls|
  {
    if calls != [] {
      var prefix := calls[..|calls| - 1];
      assert Untouched(calls, r) ==> Untouched(prefix, r) by {
        assert forall k :: 0 <= k < |prefix| ==> prefix[k] == calls[k];
      }
      RunFrame(device, tasks, prefix, r);
      StepFrame(device, Run(device, tasks, prefix), calls[|calls| - 1]);
    }
  }

  /** Replaying one more call is one more step. */
  lemma RunSnoc(device: set<string>, tasks: map<Role, Task>, calls: seq<Call>, c: Call)
    ensures Run(device, tasks, calls + [c]) == Step(device, Run(device, tasks, calls), c)
  {
    assert (calls + [c])[..|calls|] == calls;
  }

  /** Replaying two calls is two steps. */
  lemma RunPair(device: set<string>, tasks: map<Role, Task>, a: Call, b: Call)
    ensures Run(device, tasks, [a, b]) == Step(device, Step(device, tasks, a), b)
  {
    RunSnoc(device, tasks, [], a);
    assert [] + [a] == [a];
    RunSnoc(device, tasks, [a], b);
    assert [a] + [b] == [a, b];
  }

  /** Replaying a prefix one call longer is one more step. */
  lemma RunPrefix(device: set<string>, tasks: map<Role, Task>, calls: seq<Call>, k: nat)
    requires k < |calls|
    ensures Run(device, tasks, calls[..k + 1]) == Step(device, Run(device, tasks, calls[..k]), calls[k])
  {
    assert calls[..k + 1][..k] == calls[..k];
  }

  /** Concatenation is associative, in the shape a trace grows by. */
  lemma AppendAssoc(trace: seq<Call>, a: seq<Call>, b: seq<Call>)
    ensures trace + (a + b) == trace + a + b
  {
  }

  /** A concatenation begins with its first part. */
  lemma PrefixOfConcat(a: seq<Call>, b: seq<Call>)
    ensures (a + b)[..|a|] == a
  {
  }

  /** Replaying two call sequences one after the other is replaying their concatenation. */
  lemma {:induction false} RunConcat(device: set<string>, tasks: map<Role, Task>, a: seq<Call>, b: seq<Call>)
    ensures Run(device, tasks, a + b) == Run(device, Run(device, tasks, a), b)
    decreases |b|
  {
    if b == [] {
      assert a + b == a;
    } else {
      var front := b[..|b| - 1];
      assert (a + b)[..|a + b| - 1] == a + front;
      RunConcat(device, tasks, a, front);
    }
  }

  /** Every channel a task holds occupies a physical counter the card has. */
  predicate ChannelsOnCard(device: set<string>, tasks: map<Role, Task>)
  {
    forall r :: r in tasks && tasks[r].channel.Some? ==> tasks[r].channel.value.Name() in device
  }

  /** No driver call puts a channel the card lacks into a task. */
  lemma StepKeepsChannelsOnCard(device: set<string>, tasks: map<Role, Task>, c: Call)
    requires ChannelsOnCard(device, tasks)
    ensures ChannelsOnCard(device, Step(device, tasks, c))
  {
  }

  /** Replaying any calls keeps every channel on the card. */
  lemma {:induction false} RunKeepsChannelsOnCard(device: set<string>, tasks: map<Role, Task>, calls: seq<Call>)
    requires ChannelsOnCard(device, tasks)
    ensures ChannelsOnCard(device, Run(device, tasks, calls))
    decreases |calls|
  {
    if calls != [] {
      RunKeepsChannelsOnCard(device, tasks, calls[..|calls| - 1]);
      StepKeepsChannelsOnCard(device, Run(device, tasks, calls[..|calls| - 1]), calls[|calls| - 1]);
    }
  }

  /** Closing a task twice is the same as closing it once (`close` is idempotent). */
  lemma CloseIdempotent(device: set<string>, tasks: map<Role, Task>, r: Role)
    ensures Run(device, tasks, [Close(r), Close(r)]) == Run(device, tasks, [Close(r)])
    ensures r in tasks ==> r in Run(device, tasks, [Close(r)]) && Run(device, tasks, [Close(r)])[r].status == Closed
  {
    RunSnoc(device, tasks, [], Close(r));
    RunSnoc(device, tasks, [Close(r)], Close(r));
    assert [Close(r)] + [Close(r)] == [Close(r), Close(r)];
    assert [] + [Close(r)] == [Close(r)];
  }

  /** The two calls of the plugins' `close`: clock first, then counter. */
  const CloseBoth: seq<Call> := [Close(Clock), Close(Counter)]

  /** Closing the clock's task and then the counter's closes every task and removes none. */
  lemma CloseBothClosesAll(device: set<string>, tasks: map<Role, Task>)
    ensures Step(device, Step(device, tasks, Close(Clock)), Close(Counter)) == CloseAll(tasks)
    ensures Run(device, tasks, CloseBoth) == CloseAll(tasks)
  {
    var after := Step(device, Step(device, tasks, Close(Clock)), Close(Counter));
    var all := CloseAll(tasks);
    forall r: Role
      ensures (r in after <==> r in all) && (r in after ==> after[r] == all[r])
    {
      if r in tasks {
        var mid := Step(device, tasks, Close(Clock));
        assert r in mid && mid[r] == (if r == Clock then tasks[r].(status := Closed) else tasks[r]);
      }
    }
    assert after == all;
    RunSnoc(device, tasks, [], Close(Clock));
    assert [] + [Close(Clock)] == [Close(Clock)];
    RunSnoc(device, tasks, [Close(Clock)], Close(Counter));
    assert [Close(Clock)] + [Close(Counter)] == CloseBoth;
  }

  /** The card. `device` is the set of physical counter channels it has. */
  class Card {
    const device: set<string>
    var tasks: map<Role, Task>
    var trace: seq<Call>

    /** The tasks are exactly what the recorded calls produce from an empty card. */
    ghost predicate Valid()
      reads this
    {
      tasks == Run(device, map[], trace)
    }

    /** A fresh card: no task in either slot, no call made. */
    constructor (device: set<string>)
      ensures Valid() && this.device == device
      ensures tasks == map[] && trace == []
    {
      this.device := device;
      tasks := map[];
      trace := [];
    }

    /** Performs one call: records it and applies its effect. */
    method Record(c: Call)
      requires Valid()
      modifies this
      ensures Valid()
      ensures trace == old(trace) + [c]
      ensures tasks == Step(device, old(tasks), c)
    {
      RunSnoc(device, map[], trace, c);
      tasks := Step(device, tasks, c);
      trace := trace + [c];
    }

    /** `task.close()`: closes the task in slot `r`, if there is one; always safe. */
    method CloseTask(r: Role)
      requires Valid()
      modifies this
      ensures Valid() && trace == old(trace) + [Close(r)]
      ensures tasks == Step(device, old(tasks), Close(r))
    {
      Record(Close(r));
    }

    /** `niTask()` stored in slot `r`. */
    method CreateTask(r: Role)
      requires Valid()
      modifies this
      ensures Valid() && trace == old(trace) + [Create(r)]
      ensures tasks == old(tasks)[r := BlankTask]
    {
      Record(Create(r));
    }

    /** `ci_channels.add_ci_semi_period_chan`; raises for an unknown physical channel. */
    method AddSemiPeriodChan(r: Role, physical: string, units: TimeUnits) returns (ok: bool)
      requires Valid()
      modifies this
      ensures Valid() && trace == old(trace) + [SemiPeriodChannel(r, physical, units)]
      ensures tasks == Step(device, old(tasks), SemiPeriodChannel(r, physical, units))
      ensures ok == CanAddChannel(device, old(tasks), r, physical)
    {
      ok := CanAddChannel(device, tasks, r, physical);
      Record(SemiPeriodChannel(r, physical, units));
    }

    /** `co_channels.add_co_pulse_chan_freq`; returns the new channel's name. */
    method AddPulseChanFreq(r: Role, physical: string, freq: real, dutyCycle: real, idleState: Level, initialDelay: real)
      returns (ok: bool, name: string)
      requires Valid()
      modifies this
      ensures Valid() && trace == old(trace) + [PulseChannel(r, physical, freq, dutyCycle, idleState, initialDelay)]
      ensures tasks == Step(device, old(tasks), PulseChannel(r, physical, freq, dutyCycle, idleState, initialDelay))
      ensures ok == CanAddChannel(device, old(tasks), r, physical)
      ensures ok ==> name == PulseChanFreq(physical, freq, dutyCycle, idleState, initialDelay).Name()
    {
      ok := CanAddChannel(device, tasks, r, physical);
      name := if ok then physical else "";
      Record(PulseChannel(r, physical, freq, dutyCycle, idleState, initialDelay));
    }

    /** The driver's `update_task`: a new task in slot `r` holding the described channel. */
    method UpdateTask(r: Role, descriptor: ChannelDescriptor) returns (ok: bool)
      requires Valid()
      modifies this
      ensures Valid() && trace == old(trace) + [Update(r, descriptor)]
      ensures tasks == Step(device, old(tasks), Update(r, descriptor))
      ensures ok == (descriptor.name in device)
    {
      ok := descriptor.name in device;
      Record(Update(r, descriptor));
    }

    /** `timing.cfg_implicit_timing(mode, samplesPerChannel)`. */
    method CfgImplicitTiming(r: Role, mode: SampleMode, samplesPerChannel: nat)
      requires Valid() && Editable(tasks, r)
      modifies this
      ensures Valid() && trace == old(trace) + [ImplicitTiming(r, mode, samplesPerChannel)]
      ensures tasks == old(tasks)[r := old(tasks)[r].(timing := Some(Timing(mode, samplesPerChannel)))]
    {
      Record(ImplicitTiming(r, mode, samplesPerChannel));
    }

    /** Sets the channel's `ci_semi_period_term` (its gate). */
    method SetSemiPeriodTerm(r: Role, term: string)
      requires Valid() && Editable(tasks, r)
      modifies this
      ensures Valid() && trace == old(trace) + [SemiPeriodTerm(r, term)]
      ensures tasks == old(tasks)[r := old(tasks)[r].(semiPeriodTerm := Some(term))]
    {
      Record(SemiPeriodTerm(r, term));
    }

    /** Sets the channel's `ci_ctr_timebase_src` (the signal whose edges are counted). */
    method SetTimebaseSrc(r: Role, src: string)
      requires Valid() && Editable(tasks, r)
      modifies this
      ensures Valid() && trace == old(trace) + [TimebaseSource(r, src)]
      ensures tasks == old(tasks)[r := old(tasks)[r].(timebaseSrc := Some(src))]
    {
      Record(TimebaseSource(r, src));
    }

    /** Sets `in_stream.relative_to`. */
    method SetRelativeTo(r: Role, relativeTo: ReadRelativeTo)
      requires Valid() && Editable(tasks, r)
      modifies this
      ensures Valid() && trace == old(trace) + [RelativeTo(r, relativeTo)]
      ensures tasks == old(tasks)[r := old(tasks)[r].(relativeTo := Some(relativeTo))]
    {
      Record(RelativeTo(r, relativeTo));
    }

    /** Sets `in_stream.offset`. */
    method SetOffset(r: Role, offset: int)
      requires Valid() && Editable(tasks, r)
      modifies this
      ensures Valid() && trace == old(trace) + [Offset(r, offset)]
      ensures tasks == old(tasks)[r := old(tasks)[r].(offset := Some(offset))]
    {
      Record(Offset(r, offset));
    }

    /** Sets `in_stream.overwrite`. */
    method SetOverwrite(r: Role, overwrite: OverwriteMode)
      requires Valid() && Editable(tasks, r)
      modifies this
      ensures Valid() && trace == old(trace) + [Overwrite(r, overwrite)]
      ensures tasks == old(tasks)[r := old(tasks)[r].(overwrite := Some(overwrite))]
    {
      Record(Overwrite(r, overwrite));
    }

    /** `start()` on the task in slot `r`. */
    method StartTask(r: Role)
      requires Valid() && Editable(tasks, r)
      modifies this
      ensures Valid() && trace == old(trace) + [Start(r)]
      ensures tasks == old(tasks)[r := old(tasks)[r].(status := Running)]
    {
      Record(Start(r));
    }

    /**
     * `task.read(number_of_samples_per_channel=n)`. What the hardware delivers
     * is the caller's `samples`; the read raises on a task that cannot be read.
     */
    method ReadSamples(r: Role, n: nat, samples: seq<int>) returns (ok: bool, data: seq<int>)
      requires Valid() && |samples| == n
      modifies this
      ensures Valid() && trace == old(trace) + [Read(r, n)]
      ensures tasks == old(tasks)
      ensures ok == Readable(old(tasks), r)
      ensures data == if ok then samples else []
    {
      ok := Readable(tasks, r);
      data := if ok then samples else [];
      Record(Read(r, n));
    }
  }
}
