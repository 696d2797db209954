// What every reachable state of the protocol satisfies.

module Invariant {
  import opened Time
  import opened HealthCounter
  import opened Protocol
  import opened World

  // The published health as a sequential counter fed with the committed results.
  function Fold(t: Thresholds, h: Health, commits: seq<Commit>): Health {
    if commits == [] then h
    else
      var last := commits[|commits| - 1];
      Apply(t, Fold(t, h, commits[..|commits| - 1]), last.outcome, last.at)
  }

  predicate Shape(cfg: Config, w: World) {
    && |w.registrations| == cfg.workers && |w.issued| == cfg.workers
    && w.clock <= MS_MAX
  }

  // Registration numbers are handed out one by one; the registry shows the newest holder.
  ghost predicate RegistryOk(w: World)
    requires |w.registrations| == |w.issued|
  {
    forall i :: 0 <= i < |w.registrations| ==>
      && w.registrations[i].instance == |w.issued[i]|
      && (w.issued[i] != [] ==> w.registrations[i].pid == w.issued[i][|w.issued[i]| - 1])
  }

  // (worker, instance) was handed to process pid.
  predicate Issued(w: World, worker: U64, instance: U64, pid: Pid) {
    worker < |w.issued| && 1 <= instance <= |w.issued[worker]| && w.issued[worker][instance - 1] == pid
  }

  predicate Running(rec: Record) { rec.phase == Preparing || rec.phase == Inflight }

  // A measured delay is a difference of two clock readings.
  predicate SampleOk(outcome: Outcome) {
    outcome.Success? && outcome.sample.Some? ==> outcome.sample.value <= MS_MAX
  }

  // A used round context is the one its claim created, and an unfinished one is uncommitted.
  predicate ProbeOk(cfg: Config, w: World, p: Process, probe: Probe) {
    if probe.round == 0 then probe == ZERO_PROBE
    else
      && probe.round <= |w.claims|
      && w.claims[probe.round - 1].id == ProbeIdentity(p, probe)
      && w.claims[probe.round - 1].start == probe.started <= p.seen
      && p.registered && probe.instance == p.instance
      && probe.deadline >= AddTime(probe.started, cfg.timeout)
      && !(probe.active && probe.pending)
      && (p.stopping ==> !probe.active && !probe.pending) && SampleOk(probe.outcome)
      && ((probe.active || probe.pending) && probe.round == |w.claims| ==> Running(w.rec))
  }

  predicate ProcessOk(cfg: Config, w: World, p: Process) {
    && p.worker < cfg.workers && p.seen <= w.clock
    && (p.registered ==> Issued(w, p.worker, p.instance, p.pid) && w.activatedAt.Some?)
    && (!p.registered ==> p.instance == 0)
    && (p.probe.Some? ==> ProbeOk(cfg, w, p, p.probe.value))
  }

  ghost predicate ProcessesOk(cfg: Config, w: World) {
    forall pid :: pid in w.processes ==>
      pid != NO_PID && w.processes[pid].pid == pid && ProcessOk(cfg, w, w.processes[pid])
  }

  predicate HoldsNewest(w: World, p: Process) {
    w.claims != [] && w.claims[|w.claims| - 1].id.pid == p.pid ==>
      p.probe.Some? && p.probe.value.round == |w.claims|
  }

  // The process of the newest claim holds its context.
  predicate Holder(w: World) {
    w.claims != [] ==>
      var pid := w.claims[|w.claims| - 1].id.pid;
      pid in w.processes && HoldsNewest(w, w.processes[pid])
  }

  predicate RecordOk(cfg: Config, w: World) {
    && |w.claims| == w.rec.round
    && (w.claims == [] ==> InitialRecord(cfg, w.rec) && w.commits == [])
    && (w.claims != [] ==>
          && w.claims[|w.claims| - 1].id == IdentityOf(w.rec)
          && w.claims[|w.claims| - 1].start == w.rec.started
          && w.rec.phase != Initial
          && w.rec.deadline >= AddTime(w.rec.started, cfg.timeout))
  }

  // When a round may start, given the previous recorded start.
  predicate Spaced(cfg: Config, previous: U64, claim: Claim, first: bool) {
    if claim.takeover then first || claim.start >= previous + cfg.timeout + cfg.grace
    else previous != 0 ==> claim.start >= previous + cfg.interval
  }

  predicate SameOwner(a: Identity, b: Identity) { a.worker == b.worker && a.instance == b.instance }

  predicate ClaimOk(cfg: Config, inherited: U64, w: World, i: nat)
    requires i < |w.claims|
  {
    var id := w.claims[i].id;
    && id.round == i + 1 && 1 <= id.term <= id.round
    && Issued(w, id.worker, id.instance, id.pid)
    && (if i == 0 then id.term == 1 && Spaced(cfg, inherited, w.claims[0], true)
        else
          var before := w.claims[i - 1];
          && id.term == before.id.term + (if SameOwner(before.id, id) then 0 else 1)
          && Spaced(cfg, before.start, w.claims[i], false))
  }

  ghost predicate ClaimsOk(cfg: Config, inherited: U64, w: World) {
    forall i :: 0 <= i < |w.claims| ==> ClaimOk(cfg, inherited, w, i)
  }

  predicate CommitOk(w: World, k: nat)
    requires k < |w.commits|
  {
    var id := w.commits[k].id;
    && 1 <= id.round <= |w.claims|
    && w.claims[id.round - 1].id == id && SampleOk(w.commits[k].outcome)
    && (k > 0 ==> w.commits[k - 1].id.round < id.round)
  }

  ghost predicate EntriesOk(w: World) {
    forall k :: 0 <= k < |w.commits| ==> CommitOk(w, k)
  }

  ghost predicate CommitsOk(w: World) {
    && EntriesOk(w)
    && (w.rec.phase == Waiting ==> w.commits != [] && w.commits[|w.commits| - 1].id.round == |w.claims|)
    && (Running(w.rec) && w.commits != [] ==> w.commits[|w.commits| - 1].id.round < |w.claims|)
  }

  // A registered process whose registration is current and whose (worker, instance) the
  // record names has its check timer armed.
  predicate Owner(w: World, p: Process) {
    && p.registered && !p.stopping
    && p.worker < |w.registrations| && Current(w.registrations[p.worker], p.pid, p.instance)
    && Names(w.rec, p.worker, p.instance)
  }

  ghost predicate TimersOk(w: World) {
    forall pid :: pid in w.processes && Owner(w, w.processes[pid]) ==> w.processes[pid].timer.Some?
  }

  ghost predicate Inv(cfg: Config, initial: Record, w: World) {
    && Shape(cfg, w) && RegistryOk(w) && ProcessesOk(cfg, w) && Holder(w) && RecordOk(cfg, w)
    && ClaimsOk(cfg, initial.started, w) && CommitsOk(w) && TimersOk(w)
    && w.rec.health == Fold(cfg.thresholds, initial.health, w.commits)
    && (w.claims == [] ==> w.rec == initial)
  }

  lemma InvAtStart(cfg: Config, w: World)
    requires cfg.Valid() && Start(cfg, w)
    ensures Inv(cfg, w.rec, w)
  {
  }

  // What the invariant says about one process.
  lemma Known(cfg: Config, initial: Record, w: World, pid: Pid)
    requires Inv(cfg, initial, w) && pid in w.processes
    ensures Shape(cfg, w) && RecordOk(cfg, w)
    ensures pid != NO_PID && w.processes[pid].pid == pid && ProcessOk(cfg, w, w.processes[pid])
    ensures HoldsNewest(w, w.processes[pid])
    ensures Owner(w, w.processes[pid]) ==> w.processes[pid].timer.Some?
    ensures var worker := w.processes[pid].worker; w.registrations[worker].instance == |w.issued[worker]|
    ensures w.rec.round == 0 || Issued(w, w.rec.worker, w.rec.instance, w.rec.owner)
  {
    if w.claims != [] {
      assert ClaimOk(cfg, initial.started, w, |w.claims| - 1);
    }
  }

  // ---- What a step leaves alone keeps its part of the invariant ----

  ghost predicate IssuedGrows(w: World, v: World) {
    |w.issued| == |v.issued| && forall i :: 0 <= i < |w.issued| ==> w.issued[i] <= v.issued[i]
  }

  lemma ClaimsFrame(cfg: Config, inherited: U64, w: World, v: World)
    requires ClaimsOk(cfg, inherited, w) && v.claims == w.claims && IssuedGrows(w, v)
    ensures ClaimsOk(cfg, inherited, v)
  {
    hide Spaced;
    forall i | 0 <= i < |v.claims| ensures ClaimOk(cfg, inherited, v, i) {
      assert ClaimOk(cfg, inherited, w, i);
    }
  }

  lemma EntriesFrame(w: World, v: World)
    requires EntriesOk(w) && w.claims <= v.claims && v.commits == w.commits
    ensures EntriesOk(v)
  {
    forall k | 0 <= k < |v.commits| ensures CommitOk(v, k) {
      assert CommitOk(w, k);
    }
  }

  lemma ProcessFrame(cfg: Config, w: World, v: World, p: Process)
    requires ProcessOk(cfg, w, p) && w.claims == v.claims && IssuedGrows(w, v) && w.clock <= v.clock
    requires w.activatedAt.Some? ==> v.activatedAt.Some?
    requires Running(w.rec) ==> Running(v.rec)
    ensures ProcessOk(cfg, v, p)
  {
  }

  lemma ProcessesFrame(cfg: Config, w: World, v: World)
    requires ProcessesOk(cfg, w) && w.claims == v.claims && IssuedGrows(w, v) && w.clock <= v.clock
    requires w.activatedAt.Some? ==> v.activatedAt.Some?
    requires Running(w.rec) ==> Running(v.rec)
    requires v.processes == w.processes
    ensures ProcessesOk(cfg, v)
  {
    hide ProcessOk;
    forall pid | pid in v.processes ensures ProcessOk(cfg, v, v.processes[pid]) {
      ProcessFrame(cfg, w, v, w.processes[pid]);
    }
  }

  // ---- Preservation, by kind of change ----

  // A step that only changes one process.
  lemma ProcessStep(cfg: Config, initial: Record, w: World, p: Process)
    requires Inv(cfg, initial, w) && p.pid != NO_PID
    requires ProcessOk(cfg, w, p)
    requires Owner(w, p) ==> p.timer.Some?
    requires HoldsNewest(w, p)
    ensures Inv(cfg, initial, Put(w, p))
  {
    hide Fold, InitialRecord, ClaimOk, CommitOk;
    var v := Put(w, p);
    ClaimsFrame(cfg, initial.started, w, v);
    EntriesFrame(w, v);
    ProcessesFrame(cfg, w, v.(processes := w.processes));
    hide ProbeOk;
    forall pid | pid in v.processes ensures ProcessOk(cfg, v, v.processes[pid]) {
      if pid == p.pid {
        ProcessFrame(cfg, w, v, p);
      } else {
        ProcessFrame(cfg, w, v, w.processes[pid]);
      }
    }
  }

  // A registry entry is replaced by one of process p, newly issued or a successor of its own.
  lemma RegistryStep(cfg: Config, initial: Record, w: World, p: Process, first: bool, registration: Registration)
    requires Inv(cfg, initial, w) && p.pid in w.processes && p == w.processes[p.pid]
    requires registration.pid == p.pid
    requires registration.instance == |w.issued[p.worker]| + (if first then 1 else 0)
    requires first <==> !p.registered
    requires !first ==> registration.instance == p.instance
    requires !first && !registration.exiting ==> !w.registrations[p.worker].exiting
    ensures Inv(cfg, initial, PublishWorker(w, p, first, registration))
  {
    hide Fold, InitialRecord, ClaimOk, CommitOk;
    var v := PublishWorker(w, p, first, registration);
    ClaimsFrame(cfg, initial.started, w, v);
    EntriesFrame(w, v);
    ProcessesFrame(cfg, w, v);
    hide ProbeOk;
    forall pid | pid in v.processes && Owner(v, v.processes[pid]) ensures v.processes[pid].timer.Some? {
      assert Owner(w, w.processes[pid]);
    }
  }

  // The running round's owner announces it or commits its result.
  predicate OwnStep(cfg: Config, w: World, p: Process, q: Process, op: Op, rec: Record) {
    && p.pid in w.processes && p == w.processes[p.pid] && p.worker < |w.registrations|
    && p.probe.Some? && Owns(p, p.probe.value, w.registrations[p.worker], w.rec) && Running(w.rec)
    && (p.probe.value.active || p.probe.value.pending) && SampleOk(p.probe.value.outcome)
    && IdentityOf(rec) == IdentityOf(w.rec) && rec.started == w.rec.started
    && rec.deadline >= AddTime(rec.started, cfg.timeout)
    && (match op
        case Announce => Running(rec) && rec.health == w.rec.health
        case Submit(clock, _) =>
          && rec.phase == Waiting && clock.Some?
          && rec.health == Apply(cfg.thresholds, w.rec.health, p.probe.value.outcome, clock.value)
        case _ => false)
    && q.pid == p.pid && q.worker == p.worker && q.probe.Some?
    && q.probe.value.round == p.probe.value.round
    && (q.timer == p.timer || q.timer.Some?)
    && q.registered == p.registered && q.instance == p.instance && q.stopping == p.stopping
  }

  // Nobody else holds a context of the running round.
  lemma OtherProcesses(cfg: Config, initial: Record, w: World, p: Process, v: World)
    requires Inv(cfg, initial, w) && p.pid in w.processes && p == w.processes[p.pid]
    requires w.claims != [] && w.claims[|w.claims| - 1].id.pid == p.pid
    requires v.claims == w.claims && v.issued == w.issued && v.clock == w.clock && v.activatedAt == w.activatedAt
    ensures forall pid :: pid in w.processes && pid != p.pid ==> ProcessOk(cfg, v, w.processes[pid])
  {
    hide Fold, InitialRecord, ClaimsOk, CommitsOk, RegistryOk, TimersOk;
    forall pid | pid in w.processes && pid != p.pid ensures ProcessOk(cfg, v, w.processes[pid]) {
      assert ProcessOk(cfg, w, w.processes[pid]);
    }
  }

  lemma OwnRecordStep(cfg: Config, initial: Record, w: World, p: Process, q: Process, op: Op, rec: Record)
    requires Inv(cfg, initial, w) && OwnStep(cfg, w, p, q, op, rec)
    requires ProcessOk(cfg, PublishPeer(w, p, op, rec), q)
    ensures Inv(cfg, initial, Put(PublishPeer(w, p, op, rec), q))
  {
    hide Apply, InitialRecord, ClaimOk;
    var v := Put(PublishPeer(w, p, op, rec), q);
    Known(cfg, initial, w, p.pid);
    ClaimsFrame(cfg, initial.started, w, v);
    EntriesFrame(w, v.(commits := w.commits));
    OtherProcesses(cfg, initial, w, p, v);
    assert EntriesOk(v) by {
      forall k | 0 <= k < |v.commits| ensures CommitOk(v, k) {
        assert k < |w.commits| ==> CommitOk(w, k);
      }
    }
    hide CommitOk;
    assert ProcessOk(cfg, v, q);
    hide ProbeOk;
    assert op.Submit? ==> v.commits[..|v.commits| - 1] == w.commits;
    assert TimersOk(v) by {
      forall pid | pid in v.processes && Owner(v, v.processes[pid]) ensures v.processes[pid].timer.Some? {
        assert Owner(w, w.processes[pid]);
      }
    }
    hide Owner, ProcessOk, Owns;
  }

  // A process with a current registration may claim the next round.
  predicate MayClaim(cfg: Config, w: World, p: Process, op: Op) {
    && p.pid in w.processes && p == w.processes[p.pid] && (op.Begin? || op.Takeover?) && op.clock.Some?
    && p.registered && !p.stopping && !Busy(p)
    && p.worker < |w.registrations| && Current(w.registrations[p.worker], p.pid, p.instance)
    && !Exhausted(p, w.rec) && Reads(w, p, op.clock.value)
    && Spaced(cfg, w.rec.started, ClaimBy(p, ClaimedRecord(cfg, p, w.rec, op.clock.value), op.Takeover?), w.claims == [])
  }

  function AfterClaim(cfg: Config, w: World, p: Process, op: Op): World
    requires MayClaim(cfg, w, p, op)
  {
    var e := ClaimEffect(cfg, Allocated(p), w.rec, op.clock.value);
    Put(PublishPeer(w, p, op, e.publication.record), Seen(e.process, op.clock))
  }

  lemma ClaimKeepsProcesses(cfg: Config, initial: Record, w: World, p: Process, op: Op)
    requires cfg.Valid() && Inv(cfg, initial, w) && MayClaim(cfg, w, p, op)
    ensures ProcessesOk(cfg, AfterClaim(cfg, w, p, op))
  {
    hide Fold, Spaced, InitialRecord, ClaimsOk, CommitsOk, RegistryOk;
    var v := AfterClaim(cfg, w, p, op);
    assert ProcessOk(cfg, w, p);
    forall pid | pid in v.processes ensures ProcessOk(cfg, v, v.processes[pid]) {
      assert pid in w.processes && ProcessOk(cfg, w, w.processes[pid]);
    }
  }

  // What a new claim needs to know about the claims before it.
  lemma NewestClaim(cfg: Config, initial: Record, w: World)
    requires Inv(cfg, initial, w)
    ensures |w.claims| == w.rec.round
    ensures w.claims == [] ==> w.rec == initial && w.rec.term == 0
    ensures w.claims != [] ==>
      var last := w.claims[|w.claims| - 1];
      last.id == IdentityOf(w.rec) && last.start == w.rec.started && 1 <= w.rec.term <= w.rec.round
  {
    hide Fold, ProcessesOk, Spaced, CommitsOk, TimersOk;
    assert w.claims != [] ==> ClaimOk(cfg, initial.started, w, |w.claims| - 1);
  }

  lemma NewClaimOk(cfg: Config, initial: Record, w: World, p: Process, op: Op)
    requires cfg.Valid() && Inv(cfg, initial, w) && MayClaim(cfg, w, p, op)
    ensures var v := AfterClaim(cfg, w, p, op);
      |v.claims| == |w.claims| + 1 && ClaimOk(cfg, initial.started, v, |w.claims|)
  {
    NewestClaim(cfg, initial, w);
    assert Issued(w, p.worker, p.instance, p.pid) by { assert ProcessOk(cfg, w, p); }
    hide Inv, Issued;
  }

  lemma ClaimKeepsClaims(cfg: Config, initial: Record, w: World, p: Process, op: Op)
    requires cfg.Valid() && Inv(cfg, initial, w) && MayClaim(cfg, w, p, op)
    ensures ClaimsOk(cfg, initial.started, AfterClaim(cfg, w, p, op))
  {
    var v := AfterClaim(cfg, w, p, op);
    NewClaimOk(cfg, initial, w, p, op);
    hide Spaced, Issued;
    forall i | 0 <= i < |v.claims| ensures ClaimOk(cfg, initial.started, v, i) {
      assert i < |w.claims| ==> ClaimOk(cfg, initial.started, w, i);
    }
  }

  lemma ClaimKeepsCommits(cfg: Config, initial: Record, w: World, p: Process, op: Op)
    requires Inv(cfg, initial, w) && MayClaim(cfg, w, p, op)
    ensures CommitsOk(AfterClaim(cfg, w, p, op))
  {
    hide Fold, ProcessesOk, ClaimsOk, RegistryOk, TimersOk;
    EntriesFrame(w, AfterClaim(cfg, w, p, op));
    assert w.commits != [] ==> CommitOk(w, |w.commits| - 1);
  }

  lemma ClaimKeepsTimers(cfg: Config, initial: Record, w: World, p: Process, op: Op)
    requires cfg.Valid() && Inv(cfg, initial, w) && MayClaim(cfg, w, p, op)
    ensures TimersOk(AfterClaim(cfg, w, p, op))
  {
    hide Fold, Spaced, ClaimsOk, CommitsOk, ProcessOk;
    var v := AfterClaim(cfg, w, p, op);
    assert forall pid :: pid in v.processes ==> v.processes[pid].pid == pid;
  }

  lemma ClaimStep(cfg: Config, initial: Record, w: World, p: Process, op: Op)
    requires cfg.Valid() && Inv(cfg, initial, w) && MayClaim(cfg, w, p, op)
    ensures Inv(cfg, initial, AfterClaim(cfg, w, p, op))
  {
    hide Fold, Spaced, ClaimsOk, CommitsOk, ProcessesOk, TimersOk, Owner;
    ClaimKeepsProcesses(cfg, initial, w, p, op);
    ClaimKeepsClaims(cfg, initial, w, p, op);
    ClaimKeepsCommits(cfg, initial, w, p, op);
    ClaimKeepsTimers(cfg, initial, w, p, op);
  }

  // ---- Preservation, by operation ----

  // Every operation keeps its process's name and shard.
  lemma EffectKeepsName(cfg: Config, w: World, pid: Pid, op: Op, contention: Contention)
    requires Enabled(cfg, w, Operate(pid, op, contention))
    ensures var q := EffectOf(cfg, w, pid, op, contention).process;
      q.pid == w.processes[pid].pid && q.worker == w.processes[pid].worker
    ensures EffectOf(cfg, w, pid, op, contention).publication.ToWorker? ==> op.Register? || op.Exit?
    ensures EffectOf(cfg, w, pid, op, contention).publication.ToPeer? ==> !op.Register? && !op.Exit?
  {
    hide Apply;
  }

  lemma LocalReturnKeeps(cfg: Config, initial: Record, w: World, pid: Pid, op: Op, contention: Contention)
    requires Inv(cfg, initial, w) && Enabled(cfg, w, Operate(pid, op, contention))
    requires Enter(cfg, op, w.processes[pid]).Some?
    ensures Inv(cfg, initial, Exec(cfg, w, Operate(pid, op, contention)))
  {
    hide Inv, Chosen, Critical, Contended, Blocked;
    var p := w.processes[pid];
    Known(cfg, initial, w, pid);
    ProcessStep(cfg, initial, w, Seen(Enter(cfg, op, p).value, Reading(op)));
  }

  lemma ContendedKeeps(cfg: Config, initial: Record, w: World, pid: Pid, op: Op, contention: Contention)
    requires Inv(cfg, initial, w) && Enabled(cfg, w, Operate(pid, op, contention))
    requires Enter(cfg, op, w.processes[pid]).None?
    requires var p := w.processes[pid]; Blocked(op, p, contention, w.registrations[p.worker])
    ensures Inv(cfg, initial, Exec(cfg, w, Operate(pid, op, contention)))
  {
    hide Inv;
    var p := w.processes[pid];
    Known(cfg, initial, w, pid);
    ProcessStep(cfg, initial, w, Seen(Contended(op, p), Reading(op)));
  }

  lemma RegisterKeeps(cfg: Config, initial: Record, w: World, pid: Pid, op: Op)
    requires Inv(cfg, initial, w) && Enabled(cfg, w, Operate(pid, op, Uncontended)) && op.Register?
    ensures Inv(cfg, initial, Exec(cfg, w, Operate(pid, op, Uncontended)))
  {
    hide Inv;
    var p := w.processes[pid];
    Known(cfg, initial, w, pid);
    var entry := w.registrations[p.worker];
    var e := RegisterEffect(p, op.now, entry);
    assert EffectOf(cfg, w, pid, op, Uncontended) == e;
    var q := Seen(e.process, Reading(op));
    if e.publication.Nothing? {
      ProcessStep(cfg, initial, w, q);
    } else {
      RegistryStep(cfg, initial, w, p, !p.registered, e.publication.registration);
      var v := PublishWorker(w, p, !p.registered, e.publication.registration);
      Known(cfg, initial, v, pid);
      ProcessStep(cfg, initial, v, q);
    }
  }

  lemma ExitKeeps(cfg: Config, initial: Record, w: World, pid: Pid)
    requires Inv(cfg, initial, w) && Enabled(cfg, w, Operate(pid, Exit, Uncontended))
    ensures Inv(cfg, initial, Exec(cfg, w, Operate(pid, Exit, Uncontended)))
  {
    hide Inv;
    var p := w.processes[pid];
    Known(cfg, initial, w, pid);
    var e := ExitEffect(p, w.registrations[p.worker]);
    assert EffectOf(cfg, w, pid, Exit, Uncontended) == e;
    if e.publication.Nothing? {
      ProcessStep(cfg, initial, w, e.process);
    } else {
      RegistryStep(cfg, initial, w, p, false, e.publication.registration);
      var v := PublishWorker(w, p, false, e.publication.registration);
      Known(cfg, initial, v, pid);
      ProcessStep(cfg, initial, v, e.process);
    }
  }

  lemma ValidateKeeps(cfg: Config, initial: Record, w: World, pid: Pid)
    requires Inv(cfg, initial, w) && Enabled(cfg, w, Operate(pid, Validate, Uncontended))
    requires Enter(cfg, Validate, w.processes[pid]).None?
    ensures Inv(cfg, initial, Exec(cfg, w, Operate(pid, Validate, Uncontended)))
  {
    hide Inv;
    Known(cfg, initial, w, pid);
    ProcessStep(cfg, initial, w, EffectOf(cfg, w, pid, Validate, Uncontended).process);
  }

  lemma AnnounceKeeps(cfg: Config, initial: Record, w: World, pid: Pid)
    requires Inv(cfg, initial, w) && Enabled(cfg, w, Operate(pid, Announce, Uncontended))
    requires Enter(cfg, Announce, w.processes[pid]).None?
    ensures Inv(cfg, initial, Exec(cfg, w, Operate(pid, Announce, Uncontended)))
  {
    hide Inv;
    Known(cfg, initial, w, pid);
    var p := w.processes[pid];
    var e := AnnounceEffect(p, w.registrations[p.worker], w.rec);
    assert EffectOf(cfg, w, pid, Announce, Uncontended) == e;
    if e.publication.Nothing? {
      ProcessStep(cfg, initial, w, e.process);
    } else {
      OwnRecordStep(cfg, initial, w, p, e.process, Announce, e.publication.record);
    }
  }

  // A pending result whose identity still matches is never refused for its phase.
  lemma OwnedRoundRuns(cfg: Config, initial: Record, w: World, pid: Pid)
    requires Inv(cfg, initial, w) && pid in w.processes && w.processes[pid].probe.Some?
    requires var p := w.processes[pid];
      && (p.probe.value.active || p.probe.value.pending)
      && p.worker < |w.registrations| && Owns(p, p.probe.value, w.registrations[p.worker], w.rec)
    ensures Running(w.rec)
  {
    Known(cfg, initial, w, pid);
  }

  lemma SubmitKeeps(cfg: Config, initial: Record, w: World, pid: Pid, op: Op)
    requires cfg.Valid() && Inv(cfg, initial, w) && Enabled(cfg, w, Operate(pid, op, Uncontended)) && op.Submit?
    requires Enter(cfg, op, w.processes[pid]).None?
    ensures Inv(cfg, initial, Exec(cfg, w, Operate(pid, op, Uncontended)))
  {
    hide Inv, Apply;
    Known(cfg, initial, w, pid);
    var p := w.processes[pid];
    var e := SubmitEffect(cfg, p, op.clock, op.quit, w.registrations[p.worker], w.rec);
    assert EffectOf(cfg, w, pid, op, Uncontended) == e;
    var q := Seen(e.process, op.clock);
    if e.publication.Nothing? {
      ProcessStep(cfg, initial, w, q);
    } else {
      assert OwnStep(cfg, w, p, q, op, e.publication.record);
      OwnRecordStep(cfg, initial, w, p, q, op, e.publication.record);
    }
  }

  lemma BeginKeeps(cfg: Config, initial: Record, w: World, pid: Pid, op: Op)
    requires cfg.Valid() && Inv(cfg, initial, w) && Enabled(cfg, w, Operate(pid, op, Uncontended)) && op.Begin?
    requires Enter(cfg, op, w.processes[pid]).None?
    ensures Inv(cfg, initial, Exec(cfg, w, Operate(pid, op, Uncontended)))
  {
    hide Inv;
    Known(cfg, initial, w, pid);
    var p := w.processes[pid];
    var now := op.clock.value;
    var e := BeginEffect(cfg, p, now, w.registrations[p.worker], w.rec);
    assert EffectOf(cfg, w, pid, op, Uncontended) == e;
    if e.publication.Nothing? {
      ProcessStep(cfg, initial, w, Seen(e.process, op.clock));
    } else {
      if w.rec.started != 0 {
        ReachedDeadline(now, w.rec.started, cfg.interval);
      }
      assert MayClaim(cfg, w, p, op);
      ClaimStep(cfg, initial, w, p, op);
      assert ClaimedRecord(cfg, Allocated(p), w.rec, now) == ClaimedRecord(cfg, p, w.rec, now);
    }
  }

  lemma TakeoverKeeps(cfg: Config, initial: Record, w: World, pid: Pid, op: Op)
    requires cfg.Valid() && Inv(cfg, initial, w) && Enabled(cfg, w, Operate(pid, op, Uncontended)) && op.Takeover?
    requires Enter(cfg, op, w.processes[pid]).None?
    ensures Inv(cfg, initial, Exec(cfg, w, Operate(pid, op, Uncontended)))
  {
    hide Inv;
    Known(cfg, initial, w, pid);
    var p := w.processes[pid];
    var now := op.clock.value;
    var e := TakeoverEffect(cfg, p, now, Activation(w), w.registrations[p.worker], w.rec);
    assert EffectOf(cfg, w, pid, op, Uncontended) == e;
    if e.publication.Nothing? {
      ProcessStep(cfg, initial, w, Seen(e.process, op.clock));
    } else {
      if w.claims != [] {
        assert now >= AddTime(w.rec.deadline, cfg.grace);
        assert now >= w.rec.started + cfg.timeout + cfg.grace;
      }
      assert MayClaim(cfg, w, p, op);
      ClaimStep(cfg, initial, w, p, op);
    }
  }

  lemma ObserveKeeps(cfg: Config, initial: Record, w: World, pid: Pid, op: Op)
    requires Inv(cfg, initial, w) && Enabled(cfg, w, Operate(pid, op, Uncontended)) && op.Observe?
    ensures Inv(cfg, initial, Exec(cfg, w, Operate(pid, op, Uncontended)))
  {
    hide Inv;
    Known(cfg, initial, w, pid);
    var p := w.processes[pid];
    var q := ObserveEffect(p, op.delay, w.rec);
    assert EffectOf(cfg, w, pid, op, Uncontended) == Effect(q, Nothing);
    if Owner(w, q) {
      assert Owner(w, p);
      OwnerHolds(cfg, initial, w, pid);
    }
    ProcessStep(cfg, initial, w, q);
  }

  // A process the record names with a current registration holds exactly the named round.
  lemma OwnerHolds(cfg: Config, initial: Record, w: World, pid: Pid)
    requires Inv(cfg, initial, w) && pid in w.processes && Owner(w, w.processes[pid])
    ensures w.rec.owner == pid && w.processes[pid].probe.Some?
    ensures var p := w.processes[pid]; Owns(p, p.probe.value, w.registrations[p.worker], w.rec)
  {
    Known(cfg, initial, w, pid);
  }

  lemma SimpleStepKeeps(cfg: Config, initial: Record, w: World, s: Step)
    requires cfg.Valid() && Inv(cfg, initial, w) && Enabled(cfg, w, s)
    requires s.Tick? || s.Crash? || s.Spawn? || s.Activate?
    ensures Inv(cfg, initial, Exec(cfg, w, s))
  {
    hide Fold, InitialRecord, ClaimOk, CommitOk;
    var u := Exec(cfg, w, s).(processes := w.processes);
    ClaimsFrame(cfg, initial.started, w, u);
    EntriesFrame(w, u);
    ProcessesFrame(cfg, w, u);
    hide ProbeOk;
    assert Inv(cfg, initial, u);
    match s {
      case Spawn(pid, worker) => ProcessStep(cfg, initial, u, NewProcess(pid, worker, w.clock));
      case Activate(pid, now) => ProcessStep(cfg, initial, u, w.processes[pid].(seen := now));
      case _ =>
    }
  }

  lemma LocalStepKeeps(cfg: Config, initial: Record, w: World, s: Step)
    requires cfg.Valid() && Inv(cfg, initial, w) && Enabled(cfg, w, s)
    requires s.StartTimer? || s.Prepare? || s.Fix? || s.Quit?
    ensures Inv(cfg, initial, Exec(cfg, w, s))
  {
    hide Inv;
    Known(cfg, initial, w, s.pid);
    ProcessStep(cfg, initial, w, Exec(cfg, w, s).processes[s.pid]);
  }

  lemma UnblockedIsUncontended(cfg: Config, w: World, pid: Pid, op: Op, contention: Contention)
    requires Enabled(cfg, w, Operate(pid, op, contention))
    requires var p := w.processes[pid]; !Blocked(op, p, contention, w.registrations[p.worker])
    ensures Exec(cfg, w, Operate(pid, op, contention)) == Exec(cfg, w, Operate(pid, op, Uncontended))
  {
    hide Enter, Critical, Contended;
  }

  lemma StepKeeps(cfg: Config, initial: Record, w: World, s: Step)
    requires cfg.Valid() && Inv(cfg, initial, w)
    ensures Inv(cfg, initial, Exec(cfg, w, s))
  {
    hide Inv, Land, EffectOf;
    if Enabled(cfg, w, s) {
      match s {
        case Operate(pid, op, contention) =>
          if Enter(cfg, op, w.processes[pid]).Some? {
            LocalReturnKeeps(cfg, initial, w, pid, op, contention);
          } else if Blocked(op, w.processes[pid], contention, w.registrations[w.processes[pid].worker]) {
            ContendedKeeps(cfg, initial, w, pid, op, contention);
          } else {
            UnblockedIsUncontended(cfg, w, pid, op, contention);
            match op {
              case Register(_) => RegisterKeeps(cfg, initial, w, pid, op);
              case Exit => ExitKeeps(cfg, initial, w, pid);
              case Validate => ValidateKeeps(cfg, initial, w, pid);
              case Announce => AnnounceKeeps(cfg, initial, w, pid);
              case Submit(_, _) => SubmitKeeps(cfg, initial, w, pid, op);
              case Begin(_, _) => BeginKeeps(cfg, initial, w, pid, op);
              case Takeover(_, _, _) => TakeoverKeeps(cfg, initial, w, pid, op);
              case Observe(_) => ObserveKeeps(cfg, initial, w, pid, op);
            }
          }
        case StartTimer(_, _) => LocalStepKeeps(cfg, initial, w, s);
        case Prepare(_, _) => LocalStepKeeps(cfg, initial, w, s);
        case Fix(_, _) => LocalStepKeeps(cfg, initial, w, s);
        case Quit(_) => LocalStepKeeps(cfg, initial, w, s);
        case _ => SimpleStepKeeps(cfg, initial, w, s);
      }
    }
  }

  // The invariant holds after every sequence of steps, for any number of processes.
  lemma {:induction false} RunKeeps(cfg: Config, initial: Record, w: World, steps: seq<Step>)
    requires cfg.Valid() && Inv(cfg, initial, w)
    ensures Inv(cfg, initial, Execute(cfg, w, steps))
  {
    if steps != [] {
      RunKeeps(cfg, initial, w, steps[..|steps| - 1]);
      StepKeeps(cfg, initial, Execute(cfg, w, steps[..|steps| - 1]), steps[|steps| - 1]);
    }
  }
}
