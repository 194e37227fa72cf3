/**
 * Names of the terminals the counter task is wired to. A pulse-generating
 * counter exposes its output to the other counters of the card as
 * `/<channel>InternalOutput`; the semi-period counter is gated by it.
 */
module Terminals {
  import opened Wrappers

  const InternalOutput: string := "InternalOutput"

  /** The internal-output terminal of the clock channel named `clockChannel`. */
  function GateTerminal(clockChannel: string): (term: string)
    ensures |term| == |clockChannel| + |InternalOutput| + 1
    ensures term[0] == '/'
    ensures term[1..|term| - |InternalOutput|] == clockChannel
    ensures term[|term| - |InternalOutput|..] == InternalOutput
  {
    "/" + clockChannel + InternalOutput
  }

  /** The clock channel whose internal output `term` names, if it names one. */
  function ClockOfGate(term: string): (clock: Option<string>)
    ensures clock.Some? ==> GateTerminal(clock.value) == term
    ensures clock.Some? ==> |clock.value| + |InternalOutput| + 1 == |term|
  {
    var n := |InternalOutput|;
    if |term| >= n + 1 && term[0] == '/' && term[|term| - n..] == InternalOutput
    then
      var clock := term[1..|term| - n];
      assert GateTerminal(clock) == term by {
        assert term == [term[0]] + term[1..|term| - n] + term[|term| - n..];
      }
      Some(clock)
    else None
  }

  /** Every gate terminal names back the clock channel it was built from. */
  lemma GateTerminalRoundTrip(clockChannel: string)
    ensures ClockOfGate(GateTerminal(clockChannel)) == Some(clockChannel)
  {
    var term := GateTerminal(clockChannel);
    var n := |InternalOutput|;
    assert term[0] == '/';
    assert term[|term| - n..] == InternalOutput;
    assert term[1..|term| - n] == clockChannel;
  }

  /** Two clock channels share a gate terminal only if they are the same channel. */
  lemma GateTerminalInjective(a: string, b: string)
    ensures GateTerminal(a) == GateTerminal(b) <==> a == b
  {
    if GateTerminal(a) == GateTerminal(b) {
      GateTerminalRoundTrip(a);
      GateTerminalRoundTrip(b);
    }
  }
}
