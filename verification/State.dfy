// Shared records updated in place and their locks (runtime/ngx_healthcheck_state.c).

module State {
  import opened Time
  import opened Protocol
  import opened Slots

  const LOCK_NS: U64 := 1000000

  // What one look at the lock meets: the clock reading taken before it, what other processes
  // left in the lock word, and the processes alive.
  datatype Moment = Moment(now: Option<U64>, holder: Pid, alive: set<Pid>)

  // The budget of one attempt: an explicit absolute limit, or one millisecond from now.
  function Limit(limit: U64, now: U64): U64 { if limit == 0 then AddTime(now, LOCK_NS) else limit }

  // The moment at which the lock is taken: the first one that finds it free, every earlier
  // one having been before the limit. A dead holder is removed at one moment and the lock
  // taken at a later one.
  function Taken(limit: U64, moments: seq<Moment>): Option<nat>
    decreases |moments|
  {
    if moments == [] || moments[0].now.None? || moments[0].now.value >= limit then None
    else if moments[0].holder == NO_PID then Some(0)
    else
      var later := Taken(limit, moments[1..]);
      if later.Some? then Some(later.value + 1) else None
  }

  // A lock is only ever taken free and strictly before the limit, however many dead or
  // live holders were met on the way.
  lemma {:induction false} TakenInTime(limit: U64, moments: seq<Moment>)
    ensures var t := Taken(limit, moments);
      t.Some? ==>
        && t.value < |moments| && moments[t.value].holder == NO_PID
        && (forall i :: 0 <= i <= t.value ==> moments[i].now.Some? && moments[i].now.value < limit)
        && (forall i :: 0 <= i < t.value ==> moments[i].holder != NO_PID)
    decreases |moments|
  {
    if moments != [] && moments[0].now.Some? && moments[0].now.value < limit && moments[0].holder != NO_PID {
      TakenInTime(limit, moments[1..]);
    }
  }

  lemma {:induction false} TakenIfFree(limit: U64, moments: seq<Moment>, k: nat)
    requires k < |moments| && moments[k].holder == NO_PID
    requires forall i :: 0 <= i <= k ==> moments[i].now.Some? && moments[i].now.value < limit
    ensures Taken(limit, moments).Some? && Taken(limit, moments).value <= k
    decreases |moments|
  {
    if moments[0].holder != NO_PID {
      TakenIfFree(limit, moments[1..], k - 1);
    }
  }

  class SharedCell {
    const width: nat
    const slot0: array<U64>
    const slot1: array<U64>
    var published: U64
    var holder: Pid

    ghost predicate Valid()
      reads this
    {
      slot0 != slot1 && slot0.Length == width && slot1.Length == width && published < 4
    }

    function Value(): Cell
      reads this, slot0, slot1
    {
      Cell(slot0[..], slot1[..], published, holder)
    }

    // The published record and the state the router reads; neither depends on the lock.
    function Shown(): (words: Words)
      reads `published, slot0, slot1
      ensures words == Live(Cell(slot0[..], slot1[..], published, NO_PID))
    {
      if published % 2 == 0 then slot0[..] else slot1[..]
    }

    predicate Down()
      reads `published
    {
      RoutedDown(Cell([], [], published, NO_PID))
    }

    constructor (words: Words)
      ensures Valid() && width == |words| && Shown() == words && holder == NO_PID && published == 0
      ensures fresh(slot0) && fresh(slot1)
    {
      width := |words|;
      slot0 := new U64[|words|](i requires 0 <= i < |words| => words[i]);
      slot1 := new U64[|words|](i => 0);
      published := 0;
      holder := NO_PID;
    }

    // Copies up to count words into the slot nobody reads. Stopping anywhere, the published
    // record and the routed state are untouched.
    method CopyWords(words: Words, count: nat)
      requires Valid() && |words| == width && count <= width
      modifies slot0, slot1
      ensures Shown() == old(Shown()) && Down() == old(Down())
      ensures Spare(Value())[..count] == words[..count]
    {
      var target := if published % 2 == 0 then slot1 else slot0;
      var k := 0;
      while k < count
        invariant k <= count
        invariant Shown() == old(Shown())
        invariant target[..k] == words[..k]
      {
        target[k] := words[k];
        k := k + 1;
      }
    }

    // Publishes a complete record by one store of the published word. The record published
    // before stays whole in the other slot.
    method Publish(words: Words, down: bool)
      requires Valid() && |words| == width
      modifies this`published, slot0, slot1
      ensures Valid() && Shown() == words && Down() == down
      ensures Spare(Value()) == old(Shown())
    {
      CopyWords(words, width);
      assert Spare(Value()) == words;
      published := (if published % 2 == 0 then 1 else 0) + if down then 2 else 0;
    }

    method TryLock(pid: Pid) returns (ok: bool)
      requires pid != NO_PID
      modifies this`holder
      ensures ok <==> old(holder) == NO_PID
      ensures holder == if ok then pid else old(holder)
    {
      ok := holder == NO_PID;
      if ok {
        holder := pid;
      }
    }

    // Only a holder confirmed dead loses its lock.
    method RecoverLock(alive: set<Pid>) returns (recovered: bool)
      modifies this`holder
      ensures recovered <==> old(holder) != NO_PID && old(holder) !in alive
      ensures holder == if recovered then NO_PID else old(holder)
    {
      recovered := holder != NO_PID && holder !in alive;
      if recovered {
        holder := NO_PID;
      }
    }

    method Unlock(pid: Pid)
      requires holder == pid
      modifies this`holder
      ensures holder == NO_PID
    {
      holder := NO_PID;
    }

    // The lock loop. Other processes act between two looks; whatever they leave in the lock
    // word is what the next moment shows.
    method Lock(pid: Pid, limit: U64, moments: seq<Moment>) returns (ok: bool)
      requires pid != NO_PID && moments != []
      requires forall i :: 0 <= i < |moments| ==> moments[i].holder != pid
      modifies this`holder
      ensures ok <==> moments[0].now.Some? && Taken(if limit == 0 then AddTime(moments[0].now.value, 1000000) else limit, moments).Some?
      ensures ok ==> holder == pid
      ensures !ok ==> holder != pid || old(holder) == pid
    {
      if moments[0].now.None? {
        return false;
      }
      var bound := Limit(limit, moments[0].now.value);
      var i := 0;
      while i < |moments|
        invariant i <= |moments|
        invariant holder != pid || holder == old(holder)
        invariant Taken(bound, moments).Some? <==> Taken(bound, moments[i..]).Some?
      {
        if moments[i].now.None? || moments[i].now.value >= bound {
          return false;
        }
        holder := moments[i].holder;
        var got := TryLock(pid);
        if got {
          return true;
        }
        var recovered := RecoverLock(moments[i].alive);
        assert moments[i..][1..] == moments[i + 1..];
        i := i + 1;
      }
      return false;
    }

    // The status pages' reader: never waits, and recovers from a dead holder once.
    method TryRead(pid: Pid, alive: set<Pid>) returns (words: Option<Words>)
      requires pid != NO_PID && Valid()
      modifies this`holder
      ensures Valid()
      ensures words.Some? <==> old(holder) == NO_PID || old(holder) !in alive
      ensures words.Some? ==> words.value == Shown() && holder == NO_PID
      ensures words.None? ==> holder == old(holder)
    {
      var got := TryLock(pid);
      if !got {
        var recovered := RecoverLock(alive);
        if !recovered {
          return None;
        }
        got := TryLock(pid);
      }
      words := Some(if published % 2 == 0 then slot0[..] else slot1[..]);
      Unlock(pid);
    }

    method Read(pid: Pid, limit: U64, moments: seq<Moment>) returns (words: Option<Words>)
      requires pid != NO_PID && Valid() && moments != []
      requires forall i :: 0 <= i < |moments| ==> moments[i].holder != pid
      modifies this`holder
      ensures Valid()
      ensures words.Some? <==> moments[0].now.Some? && Taken(if limit == 0 then AddTime(moments[0].now.value, 1000000) else limit, moments).Some?
      ensures words.Some? ==> words.value == Shown() && holder == NO_PID
    {
      var ok := Lock(pid, limit, moments);
      if !ok {
        return None;
      }
      words := Some(if published % 2 == 0 then slot0[..] else slot1[..]);
      Unlock(pid);
    }
  }
}
