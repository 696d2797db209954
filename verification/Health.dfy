// The sequential rise/fall counter a committed result updates
// (runtime/ngx_healthcheck_schedule.c, lines 335-368).

module HealthCounter {
  import opened Time
  import Arith
  import Delay

  datatype Thresholds = Thresholds(rise: U64, fall: U64) {
    predicate Valid() { rise >= 1 && fall >= 1 }
  }

  datatype Health = Health(accessTime: U64, riseCount: U64, fallCount: U64, down: bool, delay: Delay.Stats)

  function Fresh(down: bool): Health { Health(0, 0, 0, down, Delay.EMPTY) }

  // What a finished round reports: its verdict and, for a new TCP connection, a delay.
  datatype Outcome = Failure | Success(sample: Option<U64>)

  // A counter at its maximum falls back to the threshold instead of wrapping to 0.
  function Bump(count: U64, threshold: U64): U64 {
    if count < U64_MAX then count + 1 else threshold
  }

  function Apply(t: Thresholds, h: Health, outcome: Outcome, at: U64): Health {
    match outcome
    case Failure =>
      var falls := Bump(h.fallCount, t.fall);
      h.(riseCount := 0, fallCount := falls, down := h.down || falls >= t.fall, accessTime := at)
    case Success(sample) =>
      var rises := Bump(h.riseCount, t.rise);
      var delay := if sample.Some? then Delay.Record(h.delay, sample.value) else h.delay;
      h.(fallCount := 0, riseCount := rises, down := h.down && rises < t.rise, delay := delay, accessTime := at)
  }

  // ---- Unbounded run lengths: the meaning the counters approximate ----

  function Verdicts(t: Thresholds, h: Health, results: seq<bool>): Health {
    if results == [] then h
    else
      var rest := Verdicts(t, h, results[..|results| - 1]);
      Apply(t, rest, if results[|results| - 1] then Success(None) else Failure, 0)
  }

  // The length of the current unbroken run of a verdict.
  function Run(results: seq<bool>, verdict: bool): nat {
    if results == [] || results[|results| - 1] != verdict then 0
    else Run(results[..|results| - 1], verdict) + 1
  }

  // The state as the documentation defines it: the last run that reached its threshold decides.
  function Decided(t: Thresholds, initial: bool, results: seq<bool>): (down: bool) {
    if results == [] then initial
    else if Run(results, false) >= t.fall then true
    else if Run(results, true) >= t.rise then false
    else Decided(t, initial, results[..|results| - 1])
  }

  // A bounded counter for a run of any length: exact up to the maximum, then cycling
  // between the threshold and the maximum.
  function Counter(run: nat, threshold: U64): U64 {
    if run <= U64_MAX then run else Cycle(threshold, run - U64_MAX - 1)
  }

  function Cycle(threshold: U64, steps: nat): U64 {
    threshold + steps % (U64_MAX - threshold + 1)
  }

  lemma CycleStep(threshold: U64, steps: nat)
    ensures Cycle(threshold, steps + 1) == Bump(Cycle(threshold, steps), threshold)
    ensures Cycle(threshold, 0) == threshold
  {
    Arith.ModStep(steps, U64_MAX - threshold + 1);
  }

  lemma CounterStep(run: nat, threshold: U64)
    ensures Counter(run + 1, threshold) == Bump(Counter(run, threshold), threshold)
  {
    if run > U64_MAX {
      CycleStep(threshold, run - U64_MAX - 1);
    } else {
      CycleStep(threshold, 0);
    }
  }

  lemma CounterReaches(run: nat, threshold: U64)
    ensures Counter(run, threshold) >= threshold <==> run >= threshold
  {
  }

  // The bounded counters refine the unbounded run lengths for result sequences of any
  // length, past saturation, and the published state is the documented one.
  lemma {:induction false} CountersRefineRuns(t: Thresholds, initial: bool, results: seq<bool>)
    requires t.Valid()
    ensures var h := Verdicts(t, Fresh(initial), results);
      && h.fallCount == Counter(Run(results, false), t.fall)
      && h.riseCount == Counter(Run(results, true), t.rise)
      && h.down == Decided(t, initial, results)
  {
    if results != [] {
      var rest, last := results[..|results| - 1], results[|results| - 1];
      CountersRefineRuns(t, initial, rest);
      CounterStep(Run(rest, false), t.fall);
      CounterStep(Run(rest, true), t.rise);
      CounterReaches(Run(results, false), t.fall);
      CounterReaches(Run(results, true), t.rise);
      DecidedStep(t, initial, results);
    }
  }

  // One more verdict can only move the state in its own direction.
  lemma {:induction false} DecidedStep(t: Thresholds, initial: bool, results: seq<bool>)
    requires t.Valid() && results != []
    ensures var before, last := Decided(t, initial, results[..|results| - 1]), results[|results| - 1];
      Decided(t, initial, results) ==
        if last then before && Run(results, true) < t.rise else before || Run(results, false) >= t.fall
  {
    var rest := results[..|results| - 1];
    assert Run(results, true) == 0 || Run(results, false) == 0;
  }

  // The consequences a reader of a record relies on.
  lemma {:induction false} RecordShape(t: Thresholds, initial: bool, results: seq<bool>)
    requires t.Valid()
    ensures var h := Verdicts(t, Fresh(initial), results);
      && (h.fallCount >= t.fall <==> Run(results, false) >= t.fall)
      && (h.riseCount >= t.rise <==> Run(results, true) >= t.rise)
      && (h.fallCount == 0 || h.riseCount == 0)
      && (h.down ==> h.riseCount < t.rise)
      && (!h.down ==> h.fallCount < t.fall)
  {
    CountersRefineRuns(t, initial, results);
    CounterReaches(Run(results, false), t.fall);
    CounterReaches(Run(results, true), t.rise);
    assert Run(results, true) == 0 || Run(results, false) == 0;
    assert Counter(0, t.fall) == 0 && Counter(0, t.rise) == 0;
    DecidedExcludes(t, initial, results);
  }

  lemma {:induction false} DecidedExcludes(t: Thresholds, initial: bool, results: seq<bool>)
    requires t.Valid()
    ensures Decided(t, initial, results) ==> Run(results, true) < t.rise
    ensures !Decided(t, initial, results) ==> Run(results, false) < t.fall
  {
    if results != [] {
      assert Run(results, true) == 0 || Run(results, false) == 0;
      DecidedExcludes(t, initial, results[..|results| - 1]);
    }
  }

  // The published state flips exactly when the opposing run first reaches its threshold.
  lemma FlipsExactlyAtThreshold(t: Thresholds, initial: bool, results: seq<bool>)
    requires t.Valid() && results != []
    ensures var before := Verdicts(t, Fresh(initial), results[..|results| - 1]).down;
      var after := Verdicts(t, Fresh(initial), results).down;
      && (!before && after <==> !before && Run(results, false) == t.fall)
      && (before && !after <==> before && Run(results, true) == t.rise)
  {
    var rest := results[..|results| - 1];
    CountersRefineRuns(t, initial, rest);
    CountersRefineRuns(t, initial, results);
    DecidedExcludes(t, initial, rest);
    DecidedStep(t, initial, results);
  }
}
