// What a configuration reload hands over to the next run of the protocol: the records that
// zone initialization publishes are exactly what a run may start from.

module Reload {
  import opened Time
  import opened HealthCounter
  import opened Protocol
  import opened World
  import opened Invariant
  import opened Slots
  import opened State
  import opened Machine
  import opened Refinement
  import opened Zone
  import Identity
  import Timing

  // A new cycle: zeroed registrations, no process yet, the record in a published cell.
  ghost predicate NewCycle(cfg: Config, m: Machine, cell: SharedCell)
    reads cell, cell.slot0, cell.slot1
  {
    && m.peer == cell.Value()
    && m.clock <= MS_MAX && m.activatedAt == None && m.agents == map[] && m.alive == {}
    && m.claims == [] && m.commits == [] && m.issued == seq(cfg.workers, _ => [])
    && |m.workers| == cfg.workers
    && (forall i :: 0 <= i < |m.workers| ==> m.workers[i] == Cell([0, 0, 0, 0], [0, 0, 0, 0], 0, NO_PID))
  }

  lemma NewCycleStarts(cfg: Config, p: Identity.Peer, snapshot: Option<Record>, i: nat, cell: SharedCell, m: Machine)
    requires cfg.Valid() && NewCycle(cfg, m, cell)
    requires Published(cell, Inherited(p, snapshot, i % cfg.workers))
    ensures MachineStart(cfg, m) && WordsRecord(Live(m.peer)) == Inherited(p, snapshot, i % cfg.workers)
  {
    InheritedIsInitial(cfg, p, snapshot, i);
    hide WordsRecord, Inherited, InitialRecord;
    assert Live(m.peer) == cell.Shown();
  }

  // Across a reload and any run after it, whatever the peer and whatever could be read of
  // its old record: the published health is the inherited health with every new result
  // counted on top, and the first regular round keeps its distance from the inherited start.
  lemma ReloadContinues(cfg: Config, p: Identity.Peer, snapshot: Option<Record>, i: nat, cell: SharedCell, m: Machine, actions: seq<Micro>)
    requires cfg.Valid() && NewCycle(cfg, m, cell)
    requires Published(cell, Inherited(p, snapshot, i % cfg.workers))
    ensures var n := ActAll(cfg, m, actions);
      var from := Inherited(p, snapshot, i % cfg.workers);
      && WordsRecord(Live(n.peer)).health == Fold(cfg.thresholds, from.health, n.commits)
      && (n.claims != [] && !n.claims[0].takeover && from.started != 0 ==> n.claims[0].start >= from.started + cfg.interval)
  {
    NewCycleStarts(cfg, p, snapshot, i, cell, m);
    PublishedRecordAlwaysWhole(cfg, m, actions);
    MachineRefinesProtocol(cfg, m, actions);
    StartIsFull(cfg, m);
    var n := ActAll(cfg, m, actions);
    hide Full, MachineStart, Start, Inherited, Published, NewCycle, Fold, Exec, WordsRecord, RoutedDown;
    if n.claims != [] {
      assert Abstract(n).claims == n.claims;
      Timing.Cadence(cfg, Abstract(m), StepsOf(cfg, m, actions), 0);
    }
  }

  // In particular a readable TCP peer goes on with its complete old health, and an unreadable
  // or new peer starts from its configured state.
  lemma ReloadKeepsHealth(cfg: Config, p: Identity.Peer, snapshot: Option<Record>, i: nat, cell: SharedCell, m: Machine, actions: seq<Micro>)
    requires cfg.Valid() && NewCycle(cfg, m, cell)
    requires Published(cell, Inherited(p, snapshot, i % cfg.workers))
    ensures var health := WordsRecord(Live(ActAll(cfg, m, actions).peer)).health;
      var commits := ActAll(cfg, m, actions).commits;
      && (snapshot.Some? && !p.udp ==> health == Fold(cfg.thresholds, snapshot.value.health, commits))
      && (snapshot.None? ==> health == Fold(cfg.thresholds, Fresh(p.defaultDown), commits))
  {
    ReloadContinues(cfg, p, snapshot, i, cell, m, actions);
    InheritedIsInitial(cfg, p, snapshot, i);
    hide NewCycle, Published, ActAll, Fold, WordsRecord, Inherited;
  }
}
