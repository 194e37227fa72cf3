/**
 * Conversion of the raw semi-period tick counts read from the counter task
 * into a photon rate in kilocounts per second.
 *
 * The counter measures the two halves of each clock period as two
 * consecutive samples; the ticks of one gating window are the sum of a pair,
 * and the window lasts `countingTime = 1 / clock_freq` seconds.
 */
module Conversion {

  /** The even-indexed samples, numpy's `r[::2]`. */
  function Evens(r: seq<int>): (e: seq<int>)
    ensures |e| == (|r| + 1) / 2
    ensures forall i :: 0 <= i < |e| ==> e[i] == r[2 * i]
    decreases |r|
  {
    if |r| <= 1 then r else [r[0]] + Evens(r[2..])
  }

  /** The odd-indexed samples, numpy's `r[1::2]`. */
  function Odds(r: seq<int>): (o: seq<int>)
    ensures |o| == |r| / 2
    ensures forall i :: 0 <= i < |o| ==> o[i] == r[2 * i + 1]
  {
    if r == [] then [] else Evens(r[1..])
  }

  /** Length in seconds of one gating window of a clock running at `clockFreq` Hz. */
  function CountingTime(clockFreq: real): (t: real)
    requires clockFreq > 0.0
    ensures t > 0.0 && t * clockFreq == 1.0
  {
    1.0 / clockFreq
  }

  /** The rate, in kilocounts per second, of one gating window's pair of half-period counts. */
  function PairRate(first: int, second: int, countingTime: real): (rate: real)
    requires countingTime > 0.0
  {
    0.001 * (first + second) as real / countingTime
  }

  /**
   * `1e-3 * (r[::2] + r[1::2]) / countingTime`: one rate per pair of half-period counts.
   * The contract states the result pair by pair, independently of the slicing.
   */
  function Rates(r: seq<int>, countingTime: real): (rates: seq<real>)
    requires |r| % 2 == 0 && countingTime > 0.0
    ensures |rates| == |r| / 2
    ensures forall i :: 0 <= i < |rates| ==> rates[i] == PairRate(r[2 * i], r[2 * i + 1], countingTime)
  {
    var firsts, seconds := Evens(r), Odds(r);
    seq(|r| / 2, i requires 0 <= i < |r| / 2 => 0.001 * (firsts[i] + seconds[i]) as real / countingTime)
  }

  /** Scaling to thousands per window and back, on plain reals. */
  lemma KiloScaleBack(x: real, countingTime: real)
    requires countingTime > 0.0
    ensures 0.001 * x / countingTime * 1000.0 * countingTime == x
  {
    var q, rate := 0.001 * x, 0.001 * x / countingTime;
    assert rate * countingTime == q;
    assert rate * 1000.0 * countingTime == (rate * countingTime) * 1000.0;
  }

  /** Inverse view: a rate times the window length, in counts, gives back the pair's ticks. */
  lemma RatesRecoverTicks(r: seq<int>, countingTime: real, i: nat)
    requires |r| % 2 == 0 && countingTime > 0.0 && i < |r| / 2
    ensures Rates(r, countingTime)[i] * 1000.0 * countingTime == (r[2 * i] + r[2 * i + 1]) as real
  {
    assert Rates(r, countingTime)[i] == PairRate(r[2 * i], r[2 * i + 1], countingTime);
    KiloScaleBack((r[2 * i] + r[2 * i + 1]) as real, countingTime);
  }

  /** The fixed two-sample read of a grab yields exactly one rate. */
  lemma PairReadGivesOneRate(first: int, second: int, countingTime: real)
    requires countingTime > 0.0
    ensures Rates([first, second], countingTime) == [0.001 * (first + second) as real / countingTime]
  {
    var r := [first, second];
    assert r[2 * 0] == first && r[2 * 0 + 1] == second;
  }

  /** Dividing by the window length of a clock at `clockFreq` Hz multiplies by `clockFreq`, on plain reals. */
  lemma DivideByWindow(x: real, clockFreq: real)
    requires clockFreq > 0.0
    ensures x / CountingTime(clockFreq) == x * clockFreq
  {
    var t := CountingTime(clockFreq);
    assert (x * clockFreq) * t == x * (t * clockFreq);
  }

  /** With `countingTime = 1 / f`, the rate is the ticks per window times `f`, in thousands. */
  lemma RatesAtClockFrequency(r: seq<int>, clockFreq: real, i: nat)
    requires |r| % 2 == 0 && clockFreq > 0.0 && i < |r| / 2
    ensures Rates(r, CountingTime(clockFreq))[i] == 0.001 * (r[2 * i] + r[2 * i + 1]) as real * clockFreq
  {
    var t := CountingTime(clockFreq);
    assert Rates(r, t)[i] == PairRate(r[2 * i], r[2 * i + 1], t);
    DivideByWindow(0.001 * (r[2 * i] + r[2 * i + 1]) as real, clockFreq);
  }

  /** The rates of a batch's first pairs are those of its first part. */
  lemma RatesConcatFront(a: seq<int>, b: seq<int>, countingTime: real, i: nat)
    requires |a| % 2 == 0 && |b| % 2 == 0 && countingTime > 0.0 && i < |a| / 2
    ensures Rates(a + b, countingTime)[i] == Rates(a, countingTime)[i]
  {
    var ab := a + b;
    assert ab[2 * i] == a[2 * i] && ab[2 * i + 1] == a[2 * i + 1];
  }

  /** The rates of a batch's later pairs are those of its second part. */
  lemma RatesConcatBack(a: seq<int>, b: seq<int>, countingTime: real, j: nat)
    requires |a| % 2 == 0 && |b| % 2 == 0 && countingTime > 0.0 && j < |b| / 2
    ensures Rates(a + b, countingTime)[|a| / 2 + j] == Rates(b, countingTime)[j]
  {
    var ab, i := a + b, |a| / 2 + j;
    assert 2 * i == |a| + 2 * j;
    assert ab[2 * i] == b[2 * j] && ab[2 * i + 1] == b[2 * j + 1];
  }

  /** A sequence that agrees with `x` and then with `y`, index by index, is `x + y`. */
  lemma PointwiseConcat(r: seq<real>, x: seq<real>, y: seq<real>)
    requires |r| == |x| + |y|
    requires forall i :: 0 <= i < |x| ==> r[i] == x[i]
    requires forall j :: 0 <= j < |y| ==> r[|x| + j] == y[j]
    ensures r == x + y
  {
    forall i | 0 <= i < |r|
      ensures r[i] == (x + y)[i]
    {
      if i >= |x| {
        assert r[|x| + (i - |x|)] == y[i - |x|];
      }
    }
  }

  /** Converting a batch of several pairs equals converting its halves separately. */
  lemma RatesConcat(a: seq<int>, b: seq<int>, countingTime: real)
    requires |a| % 2 == 0 && |b| % 2 == 0 && countingTime > 0.0
    ensures Rates(a + b, countingTime) == Rates(a, countingTime) + Rates(b, countingTime)
  {
    var r, ra, rb := Rates(a + b, countingTime), Rates(a, countingTime), Rates(b, countingTime);
    forall i | 0 <= i < |ra|
      ensures r[i] == ra[i]
    {
      RatesConcatFront(a, b, countingTime, i);
    }
    forall j | 0 <= j < |rb|
      ensures r[|ra| + j] == rb[j]
    {
      RatesConcatBack(a, b, countingTime, j);
    }
    PointwiseConcat(r, ra, rb);
  }
}
