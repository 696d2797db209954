// What a reload carries over from the previous shared records
// (runtime/ngx_healthcheck_zone.c, lines 111-163).

module Zone {
  import opened Time
  import opened HealthCounter
  import opened Protocol
  import opened World
  import opened Slots
  import opened State
  import opened Identity
  import Delay

  function Blank(down: bool): Record {
    Record(Fresh(down), 0, NO_PID, 0, 0, 0, 0, 0, Initial)
  }

  // The record a reload makes of a readable old record, or of none.
  function Inherited(p: Peer, snapshot: Option<Record>, worker: U64): Record {
    var from := if snapshot.Some? then snapshot.value else Blank(p.defaultDown);
    Record(if p.udp then from.health.(delay := Delay.EMPTY) else from.health,
           from.started, NO_PID, worker, 0, 0, 0, 0, Initial)
  }

  function Snapshot(snapshots: seq<Option<Record>>, r: Option<nat>): Option<Record> {
    if r.Some? && r.value < |snapshots| then snapshots[r.value] else None
  }

  // Whatever state the old record was in, the new run starts from scratch: no owner, no
  // identity, no deadline, and the shards dealt out in turn; only health and the last start
  // survive, for a UDP peer the health without its delays.
  lemma InheritedIsInitial(cfg: Config, p: Peer, snapshot: Option<Record>, i: nat)
    requires cfg.Valid()
    ensures var rec := Inherited(p, snapshot, i % cfg.workers);
      && InitialRecord(cfg, rec) && rec.worker == i % cfg.workers
      && (snapshot.Some? ==>
            && rec.started == snapshot.value.started
            && rec.health == snapshot.value.health.(delay := rec.health.delay)
            && rec.health.delay == if p.udp then Delay.Stats(0, 0, 0, 0, 0, 0) else snapshot.value.health.delay)
      && (snapshot.None? ==>
            rec.started == 0 && rec.health == Health(0, 0, 0, p.defaultDown, Delay.Stats(0, 0, 0, 0, 0, 0)))
  {
  }

  // A shared record ready for its first worker.
  ghost predicate Published(cell: SharedCell, rec: Record)
    reads cell, cell.slot0, cell.slot1
  {
    && cell.Valid() && cell.width == RECORD_WORDS && cell.holder == NO_PID
    && WordsRecord(cell.Shown()) == rec && cell.Down() == rec.health.down
  }

  method InitRecord(state: Record) returns (cell: SharedCell)
    ensures fresh(cell) && fresh(cell.slot0) && fresh(cell.slot1) && Published(cell, state)
  {
    RecordRoundTrip(state);
    hide WordsRecord, RecordWords;
    cell := new SharedCell(seq(RECORD_WORDS, _ => 0));
    cell.Publish(RecordWords(state), state.health.down);
  }

  method InitState(p: Peer, snapshot: Option<Record>, worker: U64) returns (state: Record)
    ensures state == Inherited(p, snapshot, worker)
  {
    state := Blank(p.defaultDown);
    if snapshot.Some? {
      state := snapshot.value;
    }
    if p.udp {
      state := state.(health := state.health.(delay := Delay.EMPTY));
    }
    state := state.(owner := NO_PID, worker := worker, instance := 0, term := 0, round := 0);
    state := state.(deadline := 0, phase := Initial);
  }

  lemma MatchingStep(olds: seq<Stored>, left: set<nat>, peers: seq<Peer>)
    requires peers != []
    ensures var r := Latest(olds, left, peers[0], |olds|);
      Matching(olds, left, peers) == [r] + Matching(olds, Used(left, r), peers[1..])
  {
  }

  // snapshots[k] is what reading the k-th old record gave, None when its lock could not be had.
  method InitZone(index: Index, snapshots: seq<Option<Record>>, peers: seq<Peer>, workers: U64) returns (cells: seq<SharedCell>)
    requires index.Valid() && |snapshots| == |index.olds| && 0 < workers
    modifies index`chains, index`left, index.buckets, index.repr
    ensures |cells| == |peers| == |Matching(index.olds, old(index.left), peers)|
    ensures forall i :: 0 <= i < |cells| ==>
      Published(cells[i], Inherited(peers[i], Snapshot(snapshots, Matching(index.olds, old(index.left), peers)[i]), i % workers))
  {
    hide Published, WordsRecord, RecordWords, Matching, Latest, Inherited, Index.Valid;
    cells := [];
    ghost var matches := Matching(index.olds, index.left, peers);
    MatchingLength(index.olds, index.left, peers);
    var i := 0;
    while i < |peers|
      invariant i == |cells| <= |peers| && index.Valid()
      invariant matches[i..] == Matching(index.olds, index.left, peers[i..])
      invariant fresh(cells) && forall k :: 0 <= k < i ==> fresh(cells[k].slot0) && fresh(cells[k].slot1)
      invariant forall k :: 0 <= k < i ==>
        Published(cells[k], Inherited(peers[k], Snapshot(snapshots, matches[k]), k % workers))
    {
      MatchingStep(index.olds, index.left, peers[i..]);
      assert peers[i..][0] == peers[i] && peers[i..][1..] == peers[i + 1..];
      var previous := index.Take(peers[i]);
      assert matches[i] == matches[i..][0] == previous;
      assert matches[i..][1..] == matches[i + 1..];
      var snapshot := if previous.Some? then snapshots[previous.value] else None;
      var state := InitState(peers[i], snapshot, i % workers);
      var cell := InitRecord(state);
      cells := cells + [cell];
      i := i + 1;
    }
  }
}
