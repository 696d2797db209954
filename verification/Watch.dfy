// The watchdog's scan over all peers and its choice of a preferred successor
// (runtime/ngx_healthcheck_schedule.c, lines 624-697 and 726-785).

module Watch {
  import opened Time
  import opened Protocol
  import Arith

  const BATCH: nat := 256

  // ---- Which peers a scan reaches ----

  function Batch(count: nat): nat { Min(count, BATCH) }

  // The visits of one pass: up to a batch, cut short after the first one that ends late.
  function Visits(late: seq<bool>, batch: nat): nat
    requires batch <= |late|
    decreases batch
  {
    if batch == 0 then 0
    else if late[0] then 1
    else 1 + Visits(late[1..], batch - 1)
  }

  // A pass ends with its batch or with its first late visit, whichever comes first.
  lemma {:induction false} VisitsBounds(late: seq<bool>, batch: nat)
    requires batch <= |late|
    ensures Visits(late, batch) <= batch && (batch > 0 ==> Visits(late, batch) > 0)
    ensures (forall i :: 0 <= i < batch ==> !late[i]) ==> Visits(late, batch) == batch
    ensures forall i :: 0 <= i < Visits(late, batch) - 1 ==> !late[i]
    ensures 0 < Visits(late, batch) < batch ==> late[Visits(late, batch) - 1]
    decreases batch
  {
    if batch > 0 && !late[0] {
      VisitsBounds(late[1..], batch - 1);
      forall i | 0 < i < Visits(late, batch) - 1 ensures !late[i] {
        assert late[i] == late[1..][i - 1];
      }
    }
  }

  function Place(cursor: nat, i: nat, count: nat): nat
    requires 0 < count
  {
    (cursor + i) % count
  }

  // length peers in cyclic order, from the cursor on.
  function Cyclic(cursor: nat, length: nat, count: nat): (s: seq<nat>)
    requires 0 < count
    ensures |s| == length
  {
    seq(length, i requires 0 <= i < length => Place(cursor, i, count))
  }

  lemma CyclicJoin(cursor: nat, a: nat, b: nat, count: nat)
    requires 0 < count
    ensures Cyclic(cursor, a, count) + Cyclic(Place(cursor, a, count), b, count) == Cyclic(cursor, a + b, count)
  {
    var at := Place(cursor, a, count);
    forall i: nat | i < b
      ensures Place(at, i, count) == Place(cursor, a + i, count)
    {
      PlaceJoin(cursor, a, i, count);
    }
    hide Place;
    assert Cyclic(cursor, a + b, count)[..a] == Cyclic(cursor, a, count);
    assert Cyclic(cursor, a + b, count)[a..] == Cyclic(at, b, count);
  }

  lemma PlaceJoin(cursor: nat, a: nat, b: nat, count: nat)
    requires 0 < count
    ensures Place(Place(cursor, a, count), b, count) == Place(cursor, a + b, count)
  {
    Arith.ModAdd(cursor + a, b, count);
  }

  // Within one round trip no peer is visited twice, and a whole one misses none.
  lemma CyclicDistinct(cursor: nat, length: nat, count: nat, i: nat, j: nat)
    requires 0 < count && cursor < count && length <= count && i < j < length
    ensures Cyclic(cursor, length, count)[i] != Cyclic(cursor, length, count)[j]
  {
    Arith.ModWrap(cursor + i, count);
    Arith.ModWrap(cursor + j, count);
  }

  lemma CyclicCovers(cursor: nat, length: nat, count: nat, target: nat)
    requires 0 < count && cursor < count <= length && target < count
    ensures target in Cyclic(cursor, length, count)
  {
    var k := if target >= cursor then target - cursor else target + count - cursor;
    Arith.ModWrap(cursor + k, count);
    assert Cyclic(cursor, length, count)[k] == target;
  }

  class Watchdog {
    const count: nat
    var cursor: nat

    ghost predicate Valid()
      reads this
    {
      cursor < count
    }

    constructor (count: nat)
      requires 0 < count
      ensures Valid() && this.count == count && cursor == 0
    {
      this.count, cursor := count, 0;
    }

    // One pass over the peers; late[i] tells whether the i-th visit ends after the budget
    // or with an unreadable clock.
    method Tick(late: seq<bool>) returns (visited: seq<nat>)
      requires Valid() && Batch(count) <= |late|
      modifies this
      ensures Valid()
      ensures visited == Cyclic(old(cursor), Visits(late, Batch(count)), count) && |visited| <= 256
      ensures cursor == Place(old(cursor), |visited|, count)
    {
      hide Cyclic;
      visited := [];
      var batch := Batch(count);
      NothingVisited(cursor, count);
      while |visited| < batch
        invariant |visited| <= batch && cursor < count
        invariant visited == Cyclic(old(cursor), |visited|, count)
        invariant cursor == Place(old(cursor), |visited|, count)
        invariant Visits(late, batch) == |visited| + Visits(late[|visited|..], batch - |visited|)
      {
        OneMoreVisit(old(cursor), |visited|, count);
        var ends := late[|visited|];
        assert late[|visited|..][1..] == late[|visited| + 1..];
        visited := visited + [cursor];
        cursor := (cursor + 1) % count;
        if ends {
          return;
        }
      }
    }

    // Any number of passes, each cut short or not: together they visit the peers in one
    // unbroken cyclic order, and as many passes as there are peers, or one round of full
    // batches, miss none.
    method Scan(passes: seq<seq<bool>>) returns (visited: seq<nat>)
      requires Valid() && forall k :: 0 <= k < |passes| ==> Batch(count) <= |passes[k]|
      modifies this
      ensures Valid()
      ensures visited == Cyclic(old(cursor), Sum(Lengths(passes, Batch(count))), count)
      ensures |passes| >= count ==> forall peer :: 0 <= peer < count ==> peer in visited
      ensures AllFull(passes, Batch(count)) && |passes| * BATCH >= count ==> forall peer :: 0 <= peer < count ==> peer in visited
    {
      hide Cyclic, Passes, Visits, Place, Lengths, Sum;
      visited := [];
      NothingVisited(cursor, count);
      assert passes[..0] == [] && Sum(Lengths([], Batch(count))) == 0 by { NoLengths(Batch(count)); }
      var k := 0;
      while k < |passes|
        invariant k <= |passes| && Valid()
        invariant visited == Cyclic(old(cursor), Sum(Lengths(passes[..k], Batch(count))), count)
        invariant cursor == Place(old(cursor), Sum(Lengths(passes[..k], Batch(count))), count)
      {
        ghost var sum := Sum(Lengths(passes[..k], Batch(count)));
        var more := Tick(passes[k]);
        VisitsBounds(passes[k], Batch(count));
        LengthsGrow(passes, k, Batch(count));
        CyclicJoin(old(cursor), sum, |more|, count);
        PlaceJoin(old(cursor), sum, |more|, count);
        visited := visited + more;
        k := k + 1;
      }
      assert passes[..k] == passes;
      if |passes| >= count || (AllFull(passes, Batch(count)) && |passes| * BATCH >= count) {
        Covers(old(cursor), passes, count);
      }
    }
  }

  // The lengths of passes.
  function Lengths(passes: seq<seq<bool>>, batch: nat): (s: seq<nat>)
    requires forall k :: 0 <= k < |passes| ==> batch <= |passes[k]|
    ensures |s| == |passes|
  {
    seq(|passes|, k requires 0 <= k < |passes| => Visits(passes[k], batch))
  }

  predicate AllFull(passes: seq<seq<bool>>, batch: nat)
    requires forall k :: 0 <= k < |passes| ==> batch <= |passes[k]|
  {
    forall k :: 0 <= k < |passes| ==> Visits(passes[k], batch) == batch
  }

  lemma {:induction false} SumAppend(s: seq<nat>, n: nat)
    ensures Sum(s + [n]) == Sum(s) + n
  {
    if s == [] {
    } else {
      SumAppend(s[1..], n);
      assert (s + [n])[1..] == s[1..] + [n];
    }
  }

  lemma NoLengths(batch: nat)
    ensures Sum(Lengths([], batch)) == 0
  {
  }

  lemma LengthsGrow(passes: seq<seq<bool>>, k: nat, batch: nat)
    requires k < |passes| && forall i :: 0 <= i < |passes| ==> batch <= |passes[i]|
    ensures Sum(Lengths(passes[..k + 1], batch)) == Sum(Lengths(passes[..k], batch)) + Visits(passes[k], batch)
  {
    SumAppend(Lengths(passes[..k], batch), Visits(passes[k], batch));
    assert Lengths(passes[..k + 1], batch) == Lengths(passes[..k], batch) + [Visits(passes[k], batch)];
  }

  lemma Covers(cursor: nat, passes: seq<seq<bool>>, count: nat)
    requires cursor < count && forall k :: 0 <= k < |passes| ==> Batch(count) <= |passes[k]|
    requires |passes| >= count || (AllFull(passes, Batch(count)) && |passes| * BATCH >= count)
    ensures forall peer :: 0 <= peer < count ==> peer in Cyclic(cursor, Sum(Lengths(passes, Batch(count))), count)
  {
    var lengths := Lengths(passes, Batch(count));
    forall k | 0 <= k < |lengths| ensures 0 < lengths[k] <= Batch(count) {
      VisitsBounds(passes[k], Batch(count));
    }
    hide Cyclic, Passes;
    forall peer | 0 <= peer < count ensures peer in Cyclic(cursor, Sum(lengths), count) {
      EveryPeerIsVisited(cursor, lengths, count, peer);
      PassesAreContiguous(cursor, lengths, count);
    }
  }

  lemma NothingVisited(cursor: nat, count: nat)
    requires cursor < count
    ensures Cyclic(cursor, 0, count) == [] && Place(cursor, 0, count) == cursor
  {
    Arith.ModWrap(cursor, count);
  }

  lemma OneMoreVisit(cursor: nat, n: nat, count: nat)
    requires 0 < count
    ensures Cyclic(cursor, n, count) + [Place(cursor, n, count)] == Cyclic(cursor, n + 1, count)
    ensures (Place(cursor, n, count) + 1) % count == Place(cursor, n + 1, count)
  {
    Arith.ModAdd(cursor + n, 1, count);
    hide Place;
    assert Cyclic(cursor, n + 1, count)[..n] == Cyclic(cursor, n, count);
  }

  // ---- Whole runs of the scan ----

  function Sum(visits: seq<nat>): nat { if visits == [] then 0 else visits[0] + Sum(visits[1..]) }

  // The peers visited by consecutive passes of the given lengths.
  function Passes(cursor: nat, visits: seq<nat>, count: nat): seq<nat>
    requires 0 < count
    decreases |visits|
  {
    if visits == [] then []
    else Cyclic(cursor, visits[0], count) + Passes(Place(cursor, visits[0], count), visits[1..], count)
  }

  lemma {:induction false} PassesAreContiguous(cursor: nat, visits: seq<nat>, count: nat)
    requires 0 < count
    ensures Passes(cursor, visits, count) == Cyclic(cursor, Sum(visits), count)
    decreases |visits|
  {
    if visits != [] {
      PassesAreContiguous(Place(cursor, visits[0], count), visits[1..], count);
      CyclicJoin(cursor, visits[0], Sum(visits[1..]), count);
    }
  }

  lemma {:induction false} SumAtLeast(visits: seq<nat>, least: nat)
    requires forall i :: 0 <= i < |visits| ==> visits[i] >= least
    ensures Sum(visits) >= |visits| * least
  {
    if visits != [] {
      SumAtLeast(visits[1..], least);
      assert |visits| * least == (|visits| - 1) * least + least;
    }
  }

  // However often passes are cut short, as many passes as there are peers visit them all,
  // and so does one round of full batches.
  lemma EveryPeerIsVisited(cursor: nat, visits: seq<nat>, count: nat, target: nat)
    requires 0 < count && cursor < count && target < count
    requires forall i :: 0 <= i < |visits| ==> 0 < visits[i] <= Batch(count)
    requires |visits| >= count || ((forall i :: 0 <= i < |visits| ==> visits[i] == Batch(count)) && |visits| * BATCH >= count)
    ensures target in Passes(cursor, visits, count)
  {
    PassesAreContiguous(cursor, visits, count);
    if |visits| >= count {
      SumAtLeast(visits, 1);
    } else {
      SumAtLeast(visits, Batch(count));
      if count <= BATCH {
        assert |visits| > 0;
        Arith.MulMono(1, |visits|, count);
      }
    }
    CyclicCovers(cursor, Sum(visits), count, target);
  }

  // ---- The preferred successor ----

  // A worker another one may see as the successor: registered, not exiting, not the owner
  // itself, and recently alive.
  predicate Fresh(candidate: Option<Registration>, i: nat, rec: Record, now: U64, grace: U64) {
    candidate.Some? &&
    var c := candidate.value;
    && c.instance != 0 && !c.exiting && !(i == rec.worker && c.instance == rec.instance)
    && now >= c.heartbeat && now - c.heartbeat < grace
  }

  // Whom nobody takes for a successor: a worker whose registration could not be read, was
  // never written, is marked, is the record's own, or shows a time still to come.
  lemma NeverFresh(i: nat, c: Registration, rec: Record, now: U64, grace: U64)
    ensures !Fresh(None, i, rec, now, grace)
    ensures c.instance == 0 || c.exiting || c.heartbeat > now ==> !Fresh(Some(c), i, rec, now, grace)
    ensures i == rec.worker && c.instance == rec.instance ==> !Fresh(Some(c), i, rec, now, grace)
  {
  }

  // i is the best fresh candidate below n: highest score, lowest number among equals.
  predicate IsBest(view: seq<Option<Registration>>, score: nat -> nat, rec: Record, now: U64, grace: U64, n: nat, i: nat)
    requires n <= |view|
  {
    && i < n && Fresh(view[i], i, rec, now, grace)
    && (forall j :: 0 <= j < n && Fresh(view[j], j, rec, now, grace) ==>
          score(j) < score(i) || (score(j) == score(i) && i <= j))
  }

  // Whether the watchdog takes the record over at all: the deadline and the grace are over,
  // and either the time left to the preferred worker is too, or this worker is the preferred.
  predicate Gate(cfg: Config, activatedAt: U64, rec: Record, me: nat, choice: Choice) {
    var eligible := AddTime(Deadline(cfg, activatedAt, rec), cfg.grace);
    && choice.now >= eligible
    && (choice.now >= AddTime(eligible, cfg.preference)
        || IsBest(choice.view, cfg.score, rec, choice.now, cfg.grace, |choice.view|, me))
  }

  // Given one view of the registry, at most one worker finds itself preferred, and exactly
  // one does when anybody is fresh.
  lemma BestIsUnique(view: seq<Option<Registration>>, score: nat -> nat, rec: Record, now: U64, grace: U64, a: nat, b: nat)
    requires IsBest(view, score, rec, now, grace, |view|, a) && IsBest(view, score, rec, now, grace, |view|, b)
    ensures a == b
  {
  }

  lemma {:induction false} BestExists(view: seq<Option<Registration>>, score: nat -> nat, rec: Record, now: U64, grace: U64, n: nat, k: nat)
    requires n <= |view| && k < n && Fresh(view[k], k, rec, now, grace)
    ensures exists i :: 0 <= i < n && IsBest(view, score, rec, now, grace, n, i)
  {
    if exists j :: 0 <= j < n - 1 && Fresh(view[j], j, rec, now, grace) {
      var j :| 0 <= j < n - 1 && Fresh(view[j], j, rec, now, grace);
      BestExists(view, score, rec, now, grace, n - 1, j);
      var i :| 0 <= i < n - 1 && IsBest(view, score, rec, now, grace, n - 1, i);
      if Fresh(view[n - 1], n - 1, rec, now, grace) && score(n - 1) > score(i) {
        assert IsBest(view, score, rec, now, grace, n, n - 1);
      } else {
        assert IsBest(view, score, rec, now, grace, n, i);
      }
    } else {
      assert k == n - 1;
      assert IsBest(view, score, rec, now, grace, n, k);
    }
  }

  // Given one view of the registry with any fresh worker in it, exactly one worker is the
  // preferred successor.
  lemma ExactlyOnePreferred(view: seq<Option<Registration>>, score: nat -> nat, rec: Record, now: U64, grace: U64)
    ensures (exists k :: 0 <= k < |view| && Fresh(view[k], k, rec, now, grace)) <==>
            (exists i :: 0 <= i < |view| && IsBest(view, score, rec, now, grace, |view|, i))
    ensures forall i: nat, j: nat ::
      IsBest(view, score, rec, now, grace, |view|, i) && IsBest(view, score, rec, now, grace, |view|, j) ==> i == j
  {
    if k :| 0 <= k < |view| && Fresh(view[k], k, rec, now, grace) {
      BestExists(view, score, rec, now, grace, |view|, k);
    }
    forall i: nat, j: nat | IsBest(view, score, rec, now, grace, |view|, i) && IsBest(view, score, rec, now, grace, |view|, j)
      ensures i == j
    {
      BestIsUnique(view, score, rec, now, grace, i, j);
    }
  }

  // A scan in time: the clock was readable and the limit not reached before every reading.
  predicate InTime(clocks: seq<Option<U64>>, limit: U64) {
    forall i :: 0 <= i < |clocks| ==> clocks[i].Some? && clocks[i].value < limit
  }

  // What a scan that ran out of time amounts to: it saw nobody, itself included.
  function Scanned(choice: Choice, clocks: seq<Option<U64>>, limit: U64): Choice {
    if InTime(clocks, limit) then choice else choice.(view := seq(|choice.view|, _ => None))
  }

  // The scan of one worker. clocks[i] is the reading before the i-th registration is read; a
  // scan that runs out of time is never preferred.
  method Preferred(me: nat, view: seq<Option<Registration>>, score: nat -> nat, rec: Record, now: U64, grace: U64,
                   clocks: seq<Option<U64>>, limit: U64) returns (preferred: bool)
    requires |clocks| == |view| && me < |view|
    ensures preferred <==> InTime(clocks, limit) && IsBest(view, score, rec, now, grace, |view|, me)
  {
    var best: Option<nat> := None;
    var highest := 0;
    var i := 0;
    while i < |view|
      invariant i <= |view|
      invariant forall k :: 0 <= k < i ==> clocks[k].Some? && clocks[k].value < limit
      invariant best.None? ==> forall k :: 0 <= k < i ==> !Fresh(view[k], k, rec, now, grace)
      invariant best.Some? ==> IsBest(view, score, rec, now, grace, i, best.value) && highest == score(best.value)
    {
      if clocks[i].None? || clocks[i].value >= limit {
        return false;
      }
      if view[i].Some? {
        var c := view[i].value;
        if c.instance != 0 && !c.exiting && !(i == rec.worker && c.instance == rec.instance)
           && now >= c.heartbeat && now - c.heartbeat < grace && (best.None? || score(i) > highest) {
          best, highest := Some(i), score(i);
        }
      }
      i := i + 1;
    }
    if best.Some? && IsBest(view, score, rec, now, grace, |view|, me) {
      BestIsUnique(view, score, rec, now, grace, me, best.value);
    }
    return best == Some(me);
  }

  // The watchdog's whole decision, the scan made only when it matters.
  method Chooses(cfg: Config, activatedAt: U64, rec: Record, me: nat, choice: Choice, clocks: seq<Option<U64>>, limit: U64)
    returns (chosen: bool)
    requires |clocks| == |choice.view| && me < |choice.view|
    ensures chosen <==> Gate(cfg, activatedAt, rec, me, Scanned(choice, clocks, limit))
  {
    var eligible := AddTime(Deadline(cfg, activatedAt, rec), cfg.grace);
    if choice.now < eligible {
      return false;
    }
    if choice.now >= AddTime(eligible, cfg.preference) {
      return true;
    }
    chosen := Preferred(me, choice.view, cfg.score, rec, choice.now, cfg.grace, clocks, limit);
  }
}
