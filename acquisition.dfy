/**
 * What both counter plugins share: their settings, the decision whether a
 * grab rebuilds the tasks, the data and status they emit, and the wiring a
 * successful rebuild must leave on the card.
 */
module Acquisition {
  import opened Wrappers
  import opened Driver
  import opened Terminals

  /** The plugin's settings tree: `counter_channel`, `photon_channel`, `clock_freq`, `clock_channel`. */
  datatype Settings = Settings(counterChannel: string, photonChannel: string, clockFreq: real, clockChannel: string)

  /** The tree only holds clock frequencies of at least 1 Hz; the model needs them positive. */
  predicate ValidSettings(s: Settings)
  {
    s.clockFreq > 0.0
  }

  /** One changed setting, as delivered to `commit_settings`; `Common` is any other key of the tree. */
  datatype Setting =
    | ClockFreq(hz: real)
    | CounterChannel(counter: string)
    | PhotonChannel(photon: string)
    | ClockChannel(clock: string)
    | Common(key: string)

  predicate ValidSetting(c: Setting)
  {
    c.ClockFreq? ==> c.hz > 0.0
  }

  /** The tree after the host stored the changed value. */
  function Apply(s: Settings, c: Setting): (s': Settings)
    ensures ValidSettings(s) && ValidSetting(c) ==> ValidSettings(s')
  {
    match c
    case ClockFreq(hz) => s.(clockFreq := hz)
    case CounterChannel(n) => s.(counterChannel := n)
    case PhotonChannel(n) => s.(photonChannel := n)
    case ClockChannel(n) => s.(clockChannel := n)
    case Common(_) => s
  }

  /** Every read asks the counter task for two samples: the two half-periods of one clock period. */
  const SamplesPerRead: nat := 2

  /** Both tasks are timed continuously with a 1000-sample buffer. */
  const BufferSize: nat := 1000

  /** The two channel names the card must have for a rebuild to get through. */
  predicate ChannelsPresent(s: Settings, device: set<string>)
  {
    s.counterChannel in device && s.clockChannel in device
  }

  /**
   * Whether `grab_data` rebuilds and restarts the tasks, given the optional
   * `live` keyword argument and the current `live` flag. The running stream
   * is reused only for a live grab arriving while already live.
   */
  function Rebuilds(passed: Option<bool>, live: bool): (rebuild: bool)
    ensures !rebuild <==> passed == Some(true) && live
  {
    !(passed.Some? && passed.value == live && live)
  }

  /** The `live` flag after a grab: the passed value, when one is passed. */
  function LiveAfter(passed: Option<bool>, live: bool): (live': bool)
    ensures passed.Some? ==> live' == passed.value
    ensures passed.None? ==> live' == live
  {
    if passed.Some? then passed.value else live
  }

  /** A second live grab never rebuilds, whatever the state before the first one. */
  lemma RepeatedLiveGrabReuses(live: bool)
    ensures !Rebuilds(Some(true), LiveAfter(Some(true), live))
  {
  }

  /** A grab that is not live (no argument, or `live=False`) always rebuilds. */
  lemma SnapshotGrabRebuilds(passed: Option<bool>, live: bool)
    requires passed != Some(true)
    ensures Rebuilds(passed, live)
  {
  }

  /** The status messages the plugins emit. */
  datatype StatusMessage = AcquisitionStopped | DataOutput(rates: seq<real>)

  /** `dte_signal_temp` (the placeholder) or `dte_signal` (a grab's data). */
  datatype Signal = Temporary | Final

  /** One emitted `DataToExport` named "PL", 0-D, labelled "PL (kcts/s)". */
  datatype Export = Export(signal: Signal, values: seq<real>)

  /** The zero placeholder emitted by `ini_detector`. */
  const Placeholder: Export := Export(Temporary, [0.0])

  /** The two calls that start the pair: clock first, then counter. */
  const StartBoth: seq<Call> := [Start(Clock), Start(Counter)]

  const StreamTiming: Timing := Timing(ContinuousSamples, BufferSize)

  /**
   * The synchronised pair: the clock task with its channel and continuous
   * timing; the counter task with its channel, gated by the clock's internal
   * output, counting the photon signal, timed continuously, reading from the
   * current read position with offset 0 and never overwriting unread samples.
   */
  predicate Synchronized(tasks: map<Role, Task>, clockChannel: Channel, counterChannel: Channel,
                         photon: string, status: TaskStatus): (synced: bool)
    ensures synced && status != Closed ==> Readable(tasks, Clock) && Readable(tasks, Counter)
    ensures synced ==> Counter in tasks && tasks[Counter].semiPeriodTerm.Some?
    ensures synced && status == Open ==> GateMatchesClock(tasks, tasks[Counter].semiPeriodTerm.value)
    ensures synced ==> ClockOfGate(tasks[Counter].semiPeriodTerm.value) == Some(clockChannel.Name())
  {
    GateTerminalRoundTrip(clockChannel.Name());
    && Clock in tasks
    && tasks[Clock] == Task(status, Some(clockChannel), Some(StreamTiming), None, None, None, None, None)
    && Counter in tasks
    && tasks[Counter] == Task(status, Some(counterChannel), Some(StreamTiming),
                              Some(GateTerminal(clockChannel.Name())), Some(photon),
                              Some(CurrentReadPosition), Some(0), Some(DoNotOverwriteUnreadSamples))
  }

  /** When `term` is set as a gate, it names the internal output of the open clock task of that moment. */
  predicate GateMatchesClock(tasks: map<Role, Task>, term: string)
  {
    && Clock in tasks && tasks[Clock].status == Open && tasks[Clock].channel.Some?
    && term == GateTerminal(tasks[Clock].channel.value.Name())
  }

  /** Every gate set along `calls` names the clock task current at that point, never a stale one. */
  ghost predicate GateTracksClock(device: set<string>, tasks: map<Role, Task>, calls: seq<Call>)
  {
    forall k :: 0 <= k < |calls| && calls[k].SemiPeriodTerm? ==>
      GateMatchesClock(Run(device, tasks, calls[..k]), calls[k].term)
  }

  /** The gate property of a concatenation follows from that of its parts. */
  lemma GateTracksConcat(device: set<string>, tasks: map<Role, Task>, a: seq<Call>, b: seq<Call>)
    requires GateTracksClock(device, tasks, a)
    requires GateTracksClock(device, Run(device, tasks, a), b)
    ensures GateTracksClock(device, tasks, a + b)
  {
    var ab := a + b;
    forall k | 0 <= k < |ab| && ab[k].SemiPeriodTerm?
      ensures GateMatchesClock(Run(device, tasks, ab[..k]), ab[k].term)
    {
      if k < |a| {
        assert ab[..k] == a[..k] && ab[k] == a[k];
      } else {
        var j := k - |a|;
        assert ab[..k] == a + b[..j] && ab[k] == b[j];
        RunConcat(device, tasks, a, b[..j]);
      }
    }
  }

  /** Starting both tasks of an open synchronised pair leaves it running, wiring intact. */
  lemma StartKeepsSynchronized(device: set<string>, tasks: map<Role, Task>, clockChannel: Channel,
                               counterChannel: Channel, photon: string)
    requires Synchronized(tasks, clockChannel, counterChannel, photon, Open)
    ensures Synchronized(Run(device, tasks, StartBoth), clockChannel, counterChannel, photon, Running)
  {
    RunPair(device, tasks, Start(Clock), Start(Counter));
  }
}
