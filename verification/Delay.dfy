// Overflow-safe delay statistics (ngx_healthcheck_common.c, lines 21-86).

module Delay {
  import opened Time
  import Arith

  datatype Stats = Stats(last: U64, avg: U64, min: U64, max: U64, total: U64, count: U64)

  const EMPTY: Stats := Stats(0, 0, 0, 0, 0, 0)

  function Mean(total: nat, count: nat): (mean: nat)
    requires count > 0
    ensures mean <= total
  {
    Arith.DivRemainder(total, count);
    total / count
  }

  function Times(mean: nat, weight: nat): nat { mean * weight }

  // The first weight of count, count/2, count/4, ... whose weighted average leaves
  // room for one more sample; 0 when none does.
  function Halve(mean: nat, count: nat, delay: U64): (weight: nat)
    ensures weight <= count
    decreases count
  {
    if count == 0 then 0
    else if Times(mean, count) + delay <= U64_MAX then count
    else Halve(mean, count / 2, delay)
  }

  predicate Full(s: Stats, delay: U64) {
    s.total + delay > U64_MAX || s.count == U64_MAX
  }

  // The weight the history keeps before the new sample is added.
  function Weight(s: Stats, delay: U64): nat
    requires s.count > 0
  {
    if Full(s, delay) then Halve(Mean(s.total, s.count), s.count / 2 + 1, delay) else s.count
  }

  function History(s: Stats, delay: U64): nat
    requires s.count > 0
  {
    if Full(s, delay) then Times(Mean(s.total, s.count), Weight(s, delay)) else s.total
  }

  // The kept history with one more sample.
  function Extend(s: Stats, total: nat, weight: nat, delay: U64): Stats
    requires total + delay <= U64_MAX && weight < U64_MAX
  {
    Stats(delay, Mean(total + delay, weight + 1), Min(s.min, delay), Max(s.max, delay), total + delay, weight + 1)
  }

  // The statistics after one more sample; None where the source reports an error.
  function Accept(s: Stats, delay: U64): Option<Stats> {
    if s.count == 0 then Some(Stats(delay, delay, delay, delay, delay, 1))
    else if Weight(s, delay) == 0 then None
    else
      WeightLeavesRoom(s, delay);
      Some(Extend(s, History(s, delay), Weight(s, delay), delay))
  }

  lemma {:induction false} HalveFits(mean: nat, count: nat, delay: U64)
    ensures Halve(mean, count, delay) > 0 ==> Times(mean, Halve(mean, count, delay)) + delay <= U64_MAX
    decreases count
  {
    hide Times;
    if count > 0 && Times(mean, count) + delay > U64_MAX {
      HalveFits(mean, count / 2, delay);
    }
  }

  lemma WeightLeavesRoom(s: Stats, delay: U64)
    requires s.count > 0 && Weight(s, delay) > 0
    ensures History(s, delay) + delay <= U64_MAX
    ensures Weight(s, delay) < U64_MAX
  {
    hide Times;
    hide Mean;
    if Full(s, delay) {
      HalveFits(Mean(s.total, s.count), s.count / 2 + 1, delay);
    }
  }

  // The halving loop gives up exactly when not even one unit of history fits.
  lemma {:induction false} HalveFails(mean: nat, count: nat, delay: U64)
    requires count > 0
    ensures Halve(mean, count, delay) == 0 <==> mean + delay > U64_MAX
    decreases count
  {
    assert Times(mean, count) >= mean && Times(mean, 1) == mean by { Arith.MulAtLeast(mean, count); }
    hide Times;
    if Times(mean, count) + delay > U64_MAX && count > 1 {
      HalveFails(mean, count / 2, delay);
    }
  }

  // The invariant of every non-empty record: the kept history lies between the extremes.
  predicate Sound(s: Stats) {
    s.count > 0 ==>
      && s.min <= s.last <= s.max
      && s.min * s.count <= s.total <= s.max * s.count
      && s.avg == Mean(s.total, s.count)
  }

  lemma SoundAverage(s: Stats)
    requires Sound(s) && s.count > 0
    ensures s.min <= s.avg <= s.max
  {
    Arith.DivBetween(s.min, s.max, s.total, s.count);
  }

  // The kept history still lies between the old extremes after a rescale.
  lemma HistoryBetween(s: Stats, delay: U64)
    requires Sound(s) && s.count > 0
    ensures s.min * Weight(s, delay) <= History(s, delay) <= s.max * Weight(s, delay)
  {
    if Full(s, delay) {
      SoundAverage(s);
      var w := Weight(s, delay);
      Arith.MulMono(s.min, s.avg, w);
      Arith.MulMono(s.avg, s.max, w);
    }
  }

  // One more sample keeps a weighted total between the extremes.
  lemma AddSample(lo: nat, hi: nat, delay: nat, total: nat, weight: nat)
    requires lo * weight <= total <= hi * weight
    ensures Min(lo, delay) * (weight + 1) <= total + delay <= Max(hi, delay) * (weight + 1)
  {
    var l, h := Min(lo, delay), Max(hi, delay);
    Arith.MulMono(l, lo, weight);
    Arith.MulMono(hi, h, weight);
    assert l * (weight + 1) == l * weight + l;
    assert h * (weight + 1) == h * weight + h;
  }

  lemma AcceptKeepsSound(s: Stats, delay: U64)
    requires Sound(s) && Accept(s, delay).Some?
    ensures Sound(Accept(s, delay).value)
  {
    if s.count > 0 {
      HistoryBetween(s, delay);
      AddSample(s.min, s.max, delay, History(s, delay), Weight(s, delay));
    }
  }

  // The error case is exact: only a sample that cannot share 64 bits with the average
  // of the history is refused.
  lemma AcceptFailsIff(s: Stats, delay: U64)
    ensures Accept(s, delay).None? <==> s.count > 0 && s.total / s.count + delay > U64_MAX
  {
    hide Halve;
    if s.count > 0 {
      var mean := Mean(s.total, s.count);
      if Full(s, delay) {
        HalveFails(mean, s.count / 2 + 1, delay);
      }
    }
  }

  // ---- What a rescale keeps ----

  function Halved(count: nat, times: nat): nat { if times == 0 then count else Halved(count / 2, times - 1) }

  // No earlier halving leaves room for the sample.
  predicate TooHeavy(mean: nat, count: nat, delay: U64, times: nat) {
    forall k :: 0 <= k < times ==> Halved(count, k) > 0 && Times(mean, Halved(count, k)) + delay > U64_MAX
  }

  // The weight is the count halved as often as it takes for the sample to fit, no oftener.
  lemma {:induction false} HalveIsLeast(mean: nat, count: nat, delay: U64) returns (times: nat)
    ensures Halve(mean, count, delay) == Halved(count, times)
    ensures TooHeavy(mean, count, delay, times)
    ensures Halve(mean, count, delay) > 0 ==> Times(mean, Halved(count, times)) + delay <= U64_MAX
    decreases count
  {
    times := 0;
    if count > 0 && Times(mean, count) + delay > U64_MAX {
      var fewer := HalveIsLeast(mean, count / 2, delay);
      times := fewer + 1;
      forall k | 0 <= k < times ensures Halved(count, k) > 0 && Times(mean, Halved(count, k)) + delay > U64_MAX {
        if k > 0 {
          assert Halved(count, k) == Halved(count / 2, k - 1);
        }
      }
    }
  }

  // An accepted sample joins the whole history when there is room for it. When there is not,
  // the history shrinks to its mean, weighted with half its count, or with that halved again
  // as often as it takes for the sample to fit, no oftener.
  lemma AcceptExactly(s: Stats, delay: U64) returns (times: nat)
    requires s.count > 0 && Accept(s, delay).Some?
    ensures var r := Accept(s, delay).value;
      && r.last == delay && r.min == Min(s.min, delay) && r.max == Max(s.max, delay)
      && r.count > 1 && r.avg == Mean(r.total, r.count)
      && (if s.total + delay <= U64_MAX && s.count < U64_MAX then r.total == s.total + delay && r.count == s.count + 1
          else r.count == Halved(s.count / 2 + 1, times) + 1
               && r.total == Times(Mean(s.total, s.count), Halved(s.count / 2 + 1, times)) + delay)
    ensures TooHeavy(Mean(s.total, s.count), s.count / 2 + 1, delay, times)
  {
    hide Halve, Halved, TooHeavy, Times, Mean;
    if s.total + delay <= U64_MAX && s.count < U64_MAX {
      times := 0;
      NothingTooHeavy(Mean(s.total, s.count), s.count / 2 + 1, delay);
    } else {
      times := HalveIsLeast(Mean(s.total, s.count), s.count / 2 + 1, delay);
    }
  }

  lemma NothingTooHeavy(mean: nat, count: nat, delay: U64)
    ensures TooHeavy(mean, count, delay, 0)
  {
  }

  // A refusal needs a sample far outside the range of a real clock, here the largest value.
  lemma RefusalHappens()
    ensures Accept(EMPTY, U64_MAX).Some? && Accept(Accept(EMPTY, U64_MAX).value, 1).None?
  {
    var s := Accept(EMPTY, U64_MAX).value;
    assert s.total / s.count == U64_MAX;
    AcceptFailsIff(s, 1);
  }

  // ---- Whole sample sequences ----

  // A refused sample leaves the statistics as they were.
  function Record(s: Stats, delay: U64): Stats {
    match Accept(s, delay) case Some(t) => t case None => s
  }

  function RecordAll(s: Stats, delays: seq<U64>): Stats {
    if delays == [] then s
    else Record(RecordAll(s, delays[..|delays| - 1]), delays[|delays| - 1])
  }

  // The samples that were not refused, in order.
  function Accepted(s: Stats, delays: seq<U64>): seq<U64> {
    if delays == [] then []
    else
      var rest := delays[..|delays| - 1];
      var d := delays[|delays| - 1];
      Accepted(s, rest) + if Accept(RecordAll(s, rest), d).Some? then [d] else []
  }

  ghost predicate IsMin(m: nat, s: seq<U64>) { m in s && forall x :: x in s ==> m <= x }

  ghost predicate IsMax(m: nat, s: seq<U64>) { m in s && forall x :: x in s ==> x <= m }

  function Sum(s: seq<U64>): nat {
    if s == [] then 0 else Sum(s[..|s| - 1]) + s[|s| - 1]
  }

  // Over any unbounded sequence of samples, including any number of rescales: minimum,
  // maximum and last are those of all accepted samples and the average stays between them.
  lemma {:induction false} AllSamplesBounded(delays: seq<U64>)
    ensures Sound(RecordAll(EMPTY, delays))
    ensures RecordAll(EMPTY, delays).count > 0 <==> delays != []
    ensures delays != [] ==>
      var s, a := RecordAll(EMPTY, delays), Accepted(EMPTY, delays);
      a != [] && IsMin(s.min, a) && IsMax(s.max, a) && s.last == a[|a| - 1] && s.min <= s.avg <= s.max
  {
    if delays != [] {
      var rest, d := delays[..|delays| - 1], delays[|delays| - 1];
      AllSamplesBounded(rest);
      var s := RecordAll(EMPTY, rest);
      if Accept(s, d).Some? {
        AcceptKeepsSound(s, d);
      }
      SoundAverage(Record(s, d));
      var a := Accepted(EMPTY, rest);
      assert forall x :: x in a + [d] <==> x in a || x == d;
    }
  }

  // Until 64 bits are exhausted nothing is refused or rescaled: sum and floored mean are exact.
  lemma {:induction false} ExactWhileFitting(delays: seq<U64>)
    requires Sum(delays) <= U64_MAX && |delays| <= U64_MAX
    ensures var s := RecordAll(EMPTY, delays);
      && s.total == Sum(delays) && s.count == |delays|
      && (delays != [] ==> s.avg == Sum(delays) / |delays|)
    ensures Accepted(EMPTY, delays) == delays
  {
    if delays != [] {
      var rest, d := delays[..|delays| - 1], delays[|delays| - 1];
      ExactWhileFitting(rest);
      AcceptFailsIff(RecordAll(EMPTY, rest), d);
      assert delays == rest + [d];
    }
  }

  // Halving the weight cannot overflow the product: count/2 + 1 never exceeds count.
  lemma RescaleFits(total: nat, count: nat)
    requires count > 0
    ensures Times(Mean(total, count), count / 2 + 1) <= total
  {
    Arith.DivRemainder(total, count);
    Arith.MulMono(count / 2 + 1, count, total / count);
  }

  lemma TimesMono(mean: nat, a: nat, b: nat)
    requires a <= b
    ensures Times(mean, a) <= Times(mean, b)
  {
    Arith.MulMono(a, b, mean);
  }

  // Testing the weight against a quotient is testing the product.
  lemma ClampTest(mean: nat, weight: nat)
    requires mean > 0
    ensures weight > U64_MAX / mean <==> Times(mean, weight) > U64_MAX
  {
    Arith.DivTest(weight, mean, U64_MAX);
  }

  // ---- The record updated in place ----

  class DelayStats {
    var last: U64
    var avg: U64
    var min: U64
    var max: U64
    var total: U64
    var count: U64

    function Value(): Stats
      reads this
    {
      Stats(last, avg, min, max, total, count)
    }

    constructor (s: Stats)
      ensures Value() == s
    {
      last, avg, min, max, total, count := s.last, s.avg, s.min, s.max, s.total, s.count;
    }

    // Shrinks the history until the next sample fits (lines 44-65). The clamp and the zero
    // test of the source are dead code: reaching them is refuted here.
    method Rescale(delay: U64) returns (ok: bool)
      requires count > 0 && Full(Value(), delay)
      modifies this`total, this`count
      ensures ok <==> Weight(old(Value()), delay) > 0
      ensures count == Weight(old(Value()), delay)
      ensures ok ==> total == History(old(Value()), delay)
    {
      hide Times;
      hide Mean;
      ghost var was := Value();
      RescaleFits(total, count);
      var mean := Mean(total, count);
      count := count / 2 + 1;
      if mean != 0 {
        ClampTest(mean, count);
        if count > U64_MAX / mean {
          assert false;
        }
      }
      if count == 0 {
        assert false;
      }
      total := Times(mean, count);
      while total > U64_MAX - delay
        invariant 0 < count && total == Times(mean, count)
        invariant Halve(mean, count, delay) == Weight(was, delay)
        decreases count
      {
        TimesMono(mean, count / 2, count);
        count := count / 2;
        if count == 0 {
          return false;
        }
        total := Times(mean, count);
      }
      return true;
    }

    // The wrap test of the source is dead code as well. On an error the two running
    // fields have already been spoilt, which is why the caller works on a copy.
    method Update(delay: U64) returns (ok: bool)
      modifies this
      ensures ok <==> Accept(old(Value()), delay).Some?
      ensures ok ==> Value() == Accept(old(Value()), delay).value
      ensures !ok ==> count == 0
      ensures !ok ==> last == old(last) && avg == old(avg) && min == old(min) && max == old(max)
    {
      if count == 0 {
        total, count, last, avg, min, max := delay, 1, delay, delay, delay, delay;
        return true;
      }
      hide Halve;
      hide Times;
      hide Mean;
      ghost var was := Value();
      if total > U64_MAX - delay || count == U64_MAX {
        var fits := Rescale(delay);
        if !fits {
          return false;
        }
      }
      WeightLeavesRoom(was, delay);
      total := total + delay;
      count := count + 1;
      if count == 0 {
        assert false;
      }
      last := delay;
      avg := Mean(total, count);
      if delay < min {
        min := delay;
      }
      if delay > max {
        max := delay;
      }
      return true;
    }
  }
}
