// The status page's collection: resumable, filtered, and bounded per batch
// (status/ngx_healthcheck_snapshot.c, status/ngx_healthcheck_request.c).

module Snapshot {
  import opened Time
  import opened HealthCounter

  const STATUS_BATCH: nat := 256

  datatype Row = Row(index: nat, health: Health)

  // Which rows a request asks for: only peers that are down, only peers that are up, or all.
  datatype Filter = Filter(downOnly: bool, upOnly: bool)

  predicate Keeps(f: Filter, h: Health) {
    if f.downOnly then h.down else if f.upOnly then !h.down else true
  }

  // ---- One pass over complete observations: what a resumed collection has to equal ----

  function RowsOf(f: Filter, observed: seq<Health>): seq<Row> {
    if observed == [] then []
    else
      var n := |observed| - 1;
      RowsOf(f, observed[..n]) + if Keeps(f, observed[n]) then [Row(n, observed[n])] else []
  }

  function UpCount(observed: seq<Health>): nat {
    if observed == [] then 0
    else UpCount(observed[..|observed| - 1]) + if observed[|observed| - 1].down then 0 else 1
  }

  // Every row shows the one observation of its peer, in peer order, and no wanted peer is
  // missing.
  lemma {:induction false} RowsAreFilter(f: Filter, observed: seq<Health>)
    ensures var rows := RowsOf(f, observed);
      && (forall k :: 0 <= k < |rows| ==> rows[k].index < |observed| && rows[k].health == observed[rows[k].index] && Keeps(f, rows[k].health))
      && (forall j, k :: 0 <= j < k < |rows| ==> rows[j].index < rows[k].index)
      && (forall i :: 0 <= i < |observed| && Keeps(f, observed[i]) ==> Row(i, observed[i]) in rows)
  {
    if observed != [] {
      var n := |observed| - 1;
      RowsAreFilter(f, observed[..n]);
      var rows := RowsOf(f, observed[..n]);
      forall i | 0 <= i < |observed| && Keeps(f, observed[i])
        ensures Row(i, observed[i]) in RowsOf(f, observed)
      {
        if i < n {
          assert Row(i, observed[..n][i]) in rows;
        }
      }
    }
  }

  // Whom a request shows: the peers that are down if it asks for those, else those that are
  // up if it asks for those, else all, each with its one observation.
  lemma RowsAreWanted(f: Filter, observed: seq<Health>, i: nat)
    requires i < |observed|
    ensures Row(i, observed[i]) in RowsOf(f, observed) <==>
      (f.downOnly && observed[i].down) || (!f.downOnly && f.upOnly && !observed[i].down) || (!f.downOnly && !f.upOnly)
    ensures forall h: Health :: Row(i, h) in RowsOf(f, observed) ==> h == observed[i]
  {
    RowsAreFilter(f, observed);
    hide RowsOf;
  }

  // The up count is the number of peers observed up.
  lemma {:induction false} UpCountIsExact(observed: seq<Health>)
    ensures UpCount(observed) == |set i | 0 <= i < |observed| && !observed[i].down|
  {
    var all := set i | 0 <= i < |observed| && !observed[i].down;
    if observed != [] {
      var n := |observed| - 1;
      UpCountIsExact(observed[..n]);
      var before := set i | 0 <= i < n && !observed[..n][i].down;
      assert all == if observed[n].down then before else before + {n};
    } else {
      assert all == {};
    }
  }

  lemma {:induction false} UpRows(observed: seq<Health>)
    ensures |RowsOf(Filter(false, true), observed)| == UpCount(observed)
    ensures |RowsOf(Filter(true, false), observed)| == |observed| - UpCount(observed)
    ensures |RowsOf(Filter(false, false), observed)| == |observed|
  {
    if observed != [] {
      UpRows(observed[..|observed| - 1]);
    }
  }

  // What one attempt to read a record without waiting gives; a record may not exist.
  datatype Reading = Locked | Missing | Health(health: Health)

  datatype Status = Ok | Again | Busy | Error

  // The readings before the first one that gave nothing, at most as many as wanted.
  function Prefix(readings: seq<Reading>, wanted: nat): seq<Health>
    requires wanted <= |readings|
    decreases wanted
  {
    if wanted == 0 || !readings[0].Health? then []
    else [readings[0].health] + Prefix(readings[1..], wanted - 1)
  }

  // It is exactly that: the readings are taken in order, as far as they are wanted and give
  // something.
  lemma {:induction false} PrefixExactly(readings: seq<Reading>, wanted: nat)
    requires wanted <= |readings|
    ensures var taken := Prefix(readings, wanted);
      && |taken| <= wanted
      && (forall k :: 0 <= k < |taken| ==> readings[k] == Reading.Health(taken[k]))
      && (|taken| < wanted ==> !readings[|taken|].Health?)
    decreases wanted
  {
    if wanted > 0 && readings[0].Health? {
      PrefixExactly(readings[1..], wanted - 1);
      var taken, rest := Prefix(readings, wanted), Prefix(readings[1..], wanted - 1);
      forall k | 0 < k < |taken| ensures readings[k] == Reading.Health(taken[k]) {
        assert taken[k] == rest[k - 1] && readings[k] == readings[1..][k - 1];
      }
      if |taken| < wanted {
        assert readings[|taken|] == readings[1..][|rest|];
      }
    }
  }

  class Collection {
    const total: nat
    const flag: Filter
    var next: nat
    var up: nat
    var rows: seq<Row>
    ghost var observed: seq<Health>

    ghost predicate Valid()
      reads this
    {
      next == |observed| <= total && rows == RowsOf(flag, observed) && up == UpCount(observed)
    }

    constructor (total: nat, flag: Filter)
      ensures Valid() && this.total == total && this.flag == flag && next == 0
    {
      this.total, this.flag := total, flag;
      next, up, rows, observed := 0, 0, [], [];
    }

    // Resumes after the processed prefix. readings[k] is what the k-th attempt meets.
    method Step(readings: seq<Reading>, budget: nat) returns (rc: Status, remaining: nat)
      requires Valid() && budget <= |readings|
      modifies this
      ensures Valid() && remaining <= budget
      ensures observed == old(observed) + Prefix(readings, Min(budget, total - old(next)))
      ensures budget - remaining == next - old(next)
      ensures rc.Ok? <==> next == total
      ensures rc.Busy? <==> next < total && remaining == 0
      ensures rc.Again? <==> next < total && remaining > 0 && readings[budget - remaining].Locked?
      ensures rc.Error? <==> next < total && remaining > 0 && readings[budget - remaining].Missing?
    {
      remaining := budget;
      ghost var wanted := Min(budget, total - next);
      while next < total
        invariant Valid() && remaining <= budget && next == old(next) + (budget - remaining)
        invariant budget - remaining <= wanted
        invariant observed + Prefix(readings[budget - remaining..], wanted - (budget - remaining)) == old(observed) + Prefix(readings, wanted)
        decreases total - next
      {
        if remaining == 0 {
          return Busy, remaining;
        }
        var reading := readings[budget - remaining];
        if reading.Missing? {
          return Error, remaining;
        }
        if reading.Locked? {
          return Again, remaining;
        }
        ghost var rest := Prefix(readings[budget - remaining + 1..], wanted - (budget - remaining) - 1);
        assert readings[budget - remaining..][1..] == readings[budget - remaining + 1..];
        assert observed + ([reading.health] + rest) == observed + [reading.health] + rest;
        assert (observed + [reading.health])[..|observed|] == observed;
        observed := observed + [reading.health];
        remaining := remaining - 1;
        next := next + 1;
        up := up + if reading.health.down then 0 else 1;
        if (if flag.downOnly then !reading.health.down else flag.upOnly && reading.health.down) {
          continue;
        }
        rows := rows + [Row(next - 1, reading.health)];
      }
      return Ok, remaining;
    }
  }

  // The first n readings were added, each as it was read.
  predicate Takes(before: seq<Health>, after: seq<Health>, readings: seq<Reading>, n: nat) {
    && n <= |readings| && |after| == |before| + n && before <= after
    && forall k :: 0 <= k < n ==> readings[k] == Reading.Health(after[|before| + k])
  }

  lemma PrefixTakes(before: seq<Health>, after: seq<Health>, readings: seq<Reading>, wanted: nat)
    requires wanted <= |readings| && after == before + Prefix(readings, wanted)
    ensures |before| <= |after| && Takes(before, after, readings, |after| - |before|)
  {
    PrefixExactly(readings, wanted);
    hide Prefix;
  }

  lemma NothingTaken(observed: seq<Health>, readings: seq<Reading>)
    ensures Takes(observed, observed, readings, 0)
  {
  }

  lemma TakesMore(a: seq<Health>, b: seq<Health>, c: seq<Health>, readings: seq<Reading>, n: nat, m: nat)
    requires n <= |readings| && Takes(a, b, readings, n) && Takes(b, c, readings[n..], m)
    ensures Takes(a, c, readings, n + m)
  {
    forall k | 0 <= k < n + m ensures readings[k] == Reading.Health(c[|a| + k]) {
      if k >= n {
        assert readings[k] == readings[n..][k - n];
      } else {
        assert b[|a| + k] == c[|a| + k];
      }
    }
  }

  // A request over one or two sources that share one batch.
  class Request {
    const parts: seq<Collection>
    var part: nat

    ghost predicate Valid()
      reads this, parts
    {
      && part <= |parts| <= 2 && (|parts| == 2 ==> parts[0] != parts[1])
      && (forall i :: 0 <= i < |parts| ==> parts[i].Valid())
      && (forall i :: 0 <= i < part ==> parts[i].next == parts[i].total)
      && (forall i :: part < i < |parts| ==> parts[i].observed == [])
    }

    // All observations, source by source.
    ghost function Observed(): seq<Health>
      reads parts
    {
      (if |parts| > 0 then parts[0].observed else []) + (if |parts| > 1 then parts[1].observed else [])
    }

    ghost predicate Complete()
      reads this, parts
    {
      forall i :: 0 <= i < |parts| ==> parts[i].next == parts[i].total
    }

    ghost function Processed(): nat
      reads parts
    {
      (if |parts| > 0 then parts[0].next else 0) + (if |parts| > 1 then parts[1].next else 0)
    }

    constructor (parts: seq<Collection>)
      requires 0 < |parts| <= 2 && (|parts| == 2 ==> parts[0] != parts[1])
      requires forall i :: 0 <= i < |parts| ==> parts[i].Valid() && parts[i].next == 0
      ensures Valid() && this.parts == parts && Processed() == 0
    {
      this.parts, part := parts, 0;
    }

    lemma PartTakes(before: seq<Health>, readings: seq<Reading>, n: nat)
      requires Valid() && part < |parts| && Takes(before, parts[part].observed, readings, n)
      ensures Takes((if part > 0 then parts[0].observed else []) + before, Observed(), readings, n)
    {
    }

    // Goes on with the current source.
    method CollectPart(readings: seq<Reading>, budget: nat) returns (rc: Status, remaining: nat)
      requires Valid() && part < |parts| && budget <= |readings|
      modifies parts
      ensures Valid() && remaining <= budget && Processed() == old(Processed()) + (budget - remaining)
      ensures Takes(old(Observed()), Observed(), readings, budget - remaining)
      ensures forall i :: 0 <= i < |parts| ==> old(parts[i].observed) <= parts[i].observed
      ensures rc.Ok? <==> parts[part].next == parts[part].total
      ensures !rc.Ok? ==> !Complete()
      ensures rc.Busy? ==> remaining == 0
      ensures rc.Again? ==> remaining > 0 && readings[budget - remaining].Locked?
      ensures rc.Error? ==> remaining > 0 && readings[budget - remaining].Missing?
    {
      hide RowsOf, UpCount, Prefix, Takes;
      ghost var was := parts[part].observed;
      ghost var earlier := if part > 0 then parts[0].observed else [];
      assert earlier + was == Observed();
      ghost var wanted := Min(budget, parts[part].total - parts[part].next);
      rc, remaining := parts[part].Step(readings, budget);
      PrefixTakes(was, parts[part].observed, readings, wanted);
      assert earlier == if part > 0 then parts[0].observed else [];
      PartTakes(was, readings, budget - remaining);
    }

    // One batch: never more reads than the budget, whichever sources they fall on. It is
    // complete exactly when every source is; a pause keeps everything read so far.
    method Collect(readings: seq<Reading>) returns (rc: Status)
      requires Valid() && STATUS_BATCH <= |readings|
      modifies this`part, parts
      ensures Valid()
      ensures rc.Ok? <==> Complete()
      ensures old(Processed()) <= Processed() <= old(Processed()) + 256
      ensures Takes(old(Observed()), Observed(), readings, Processed() - old(Processed()))
      ensures rc.Busy? ==> Processed() == old(Processed()) + 256
      ensures rc.Again? ==> Processed() < old(Processed()) + STATUS_BATCH && readings[Processed() - old(Processed())].Locked?
      ensures rc.Error? ==> Processed() < old(Processed()) + STATUS_BATCH && readings[Processed() - old(Processed())].Missing?
      ensures forall i :: 0 <= i < |parts| ==> old(parts[i].observed) <= parts[i].observed
    {
      hide Request.Valid, Request.Complete, Request.Processed, Request.Observed, Takes;
      NothingTaken(Observed(), readings);
      Position();
      var remaining: nat := STATUS_BATCH;
      while part < |parts|
        invariant Valid() && part <= |parts| && remaining <= STATUS_BATCH
        invariant Processed() == old(Processed()) + (STATUS_BATCH - remaining)
        invariant Takes(old(Observed()), Observed(), readings, STATUS_BATCH - remaining)
        invariant forall i :: 0 <= i < |parts| ==> old(parts[i].observed) <= parts[i].observed
        decreases |parts| - part
      {
        ghost var done, before := STATUS_BATCH - remaining, Observed();
        rc, remaining := CollectPart(readings[STATUS_BATCH - remaining..], remaining);
        TakesMore(old(Observed()), before, Observed(), readings, done, STATUS_BATCH - remaining - done);
        if rc != Ok {
          return;
        }
        Advance();
      }
      Position();
      return Ok;
    }

    method Advance()
      requires Valid() && part < |parts| && parts[part].next == parts[part].total
      modifies this`part
      ensures Valid() && part == old(part) + 1
    {
      part := part + 1;
    }

    lemma Position()
      requires Valid()
      ensures part <= |parts| && (part == |parts| ==> Complete())
    {
    }
  }
}
