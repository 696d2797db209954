// Cadence of the rounds, and why no peer is ever left without a next round.

module Timing {
  import opened Time
  import opened HealthCounter
  import opened Protocol
  import opened World
  import opened Invariant
  import opened Operations
  import opened Records
  import Watch

  // The start recorded before round i; 0 records that there was none.
  function PreviousStart(inherited: U64, w: World, i: nat): U64
    requires i < |w.claims|
  {
    if i == 0 then inherited else w.claims[i - 1].start
  }

  // Over whole runs: a regular round starts at least an interval after the previous
  // recorded start, inherited ones included, and a takeover of a claimed record at least
  // its timeout plus the grace after it.
  lemma Cadence(cfg: Config, start: World, steps: seq<Step>, i: nat)
    requires cfg.Valid() && Start(cfg, start)
    requires i < |Execute(cfg, start, steps).claims|
    ensures var w := Execute(cfg, start, steps);
      var previous := PreviousStart(start.rec.started, w, i);
      && (!w.claims[i].takeover && previous != 0 ==> w.claims[i].start >= previous + cfg.interval)
      && (w.claims[i].takeover && i > 0 ==> w.claims[i].start >= previous + cfg.timeout + cfg.grace)
      && (i > 0 && previous != 0 ==> w.claims[i].start > previous)
  {
    InvAtStart(cfg, start);
    RunKeeps(cfg, start.rec, start, steps);
    var w := Execute(cfg, start, steps);
    assert ClaimOk(cfg, start.rec.started, w, i);
  }

  // ---- No lost wake-up ----

  // In every state of every run: whenever the record names the current registration of a
  // process, that process owns the round and its check timer is armed.
  lemma OwnerIsAwake(cfg: Config, start: World, steps: seq<Step>)
    requires cfg.Valid() && Start(cfg, start)
    ensures var w := Execute(cfg, start, steps);
      forall pid :: pid in w.processes && Owner(w, w.processes[pid]) ==>
        w.processes[pid].timer.Some? && w.rec.owner == pid
  {
    InvAtStart(cfg, start);
    RunKeeps(cfg, start.rec, start, steps);
    var w := Execute(cfg, start, steps);
    forall pid | pid in w.processes && Owner(w, w.processes[pid])
      ensures w.processes[pid].timer.Some? && w.rec.owner == pid
    {
      Known(cfg, start.rec, w, pid);
      OwnerHolds(cfg, start.rec, w, pid);
    }
  }

  // A process the record names whose check timer fires: the condition of OwnerIsAwake is
  // exact, for the timer stays armed if and only if the registration is still current.
  lemma TimerStaysExactly(cfg: Config, w: World, pid: Pid, now: U64)
    requires Enabled(cfg, w, Operate(pid, Begin(Some(now), true), Uncontended)) && w.processes[pid].pid == pid
    requires var p := w.processes[pid];
      p.registered && !p.stopping && !Busy(p) && Names(w.rec, p.worker, p.instance)
    ensures var p := w.processes[pid];
      var v := Exec(cfg, w, Operate(pid, Begin(Some(now), true), Uncontended));
      pid in v.processes && (v.processes[pid].timer.Some? <==> Current(w.registrations[p.worker], pid, p.instance))
  {
    var p, op := w.processes[pid], Begin(Some(now), true);
    assert EffectOf(cfg, w, pid, op, Uncontended) == BeginEffect(cfg, p, now, w.registrations[p.worker], w.rec);
  }

  // The owner of a committed round whose check timer fires: the condition of Cadence is
  // exact, for the next round starts if and only if no start is recorded or the interval
  // since the recorded start is over.
  lemma BeginClaimsExactly(cfg: Config, w: World, pid: Pid, now: U64)
    requires cfg.Valid() && Enabled(cfg, w, Operate(pid, Begin(Some(now), true), Uncontended)) && w.processes[pid].pid == pid
    requires Owner(w, w.processes[pid]) && !Busy(w.processes[pid]) && now <= MS_MAX
    requires w.rec.phase == Waiting && w.rec.round < U64_MAX
    ensures var v := Exec(cfg, w, Operate(pid, Begin(Some(now), true), Uncontended));
      |v.claims| > |w.claims| <==> w.rec.started == 0 || now >= w.rec.started + cfg.interval
  {
    var p, op := w.processes[pid], Begin(Some(now), true);
    assert EffectOf(cfg, w, pid, op, Uncontended) == BeginEffect(cfg, p, now, w.registrations[p.worker], w.rec);
  }

  lemma OwnerContinues(cfg: Config, initial: Record, w: World, pid: Pid, now: U64)
    requires cfg.Valid() && Inv(cfg, initial, w) && Alive(w, pid) && Owner(w, w.processes[pid])
    requires w.rec.phase == Waiting && w.rec.round < U64_MAX
    requires w.clock <= now <= MS_MAX && now >= AddTime(w.rec.started, cfg.interval)
    ensures var v := Execute(cfg, w, [Tick(now), Operate(pid, Begin(Some(now), true), Uncontended)]);
      && v.claims == w.claims + [Claim(IdentityOf(v.rec), now, false)]
      && v.rec.owner == pid && v.rec.round == w.rec.round + 1 && v.rec.term == w.rec.term
      && v.rec.phase == Preparing && v.rec.started == now
  {
    Known(cfg, initial, w, pid);
    OwnerHolds(cfg, initial, w, pid);
    hide Inv;
    var op := Begin(Some(now), true);
    var steps := [Tick(now), Operate(pid, op, Uncontended)];
    assert steps[..1] == [Tick(now)] && steps[..0] == [];
    var u := Exec(cfg, w, Tick(now));
    assert Execute(cfg, w, steps[..1]) == u;
    var p := w.processes[pid];
    assert !Busy(p);
    assert EffectOf(cfg, u, pid, op, Uncontended) == BeginEffect(cfg, p, now, u.registrations[p.worker], u.rec);
  }

  lemma ExecuteThree(cfg: Config, w: World, a: Step, b: Step, c: Step)
    ensures Execute(cfg, w, [a, b, c]) == Exec(cfg, Exec(cfg, Exec(cfg, w, a), b), c)
  {
    hide Exec;
    assert [a, b, c][..2] == [a, b] && [a, b][..1] == [a] && [a][..0] == [];
    assert Execute(cfg, w, [a]) == Exec(cfg, w, a);
    assert Execute(cfg, w, [a, b]) == Exec(cfg, Exec(cfg, w, a), b);
  }

  // What the watchdog's reading does to a process that is neither stopped nor stopping.
  lemma Observes(cfg: Config, initial: Record, w: World, pid: Pid, delay: U64)
    requires Inv(cfg, initial, w) && Alive(w, pid) && w.processes[pid].registered && !w.processes[pid].stopping
    ensures var p := w.processes[pid];
      var q := ObserveEffect(p, delay, w.rec);
      && Exec(cfg, w, Operate(pid, Observe(delay), Uncontended)) == Put(w, q)
      && q.observed == (if Names(w.rec, p.worker, p.instance) then None else Some(w.rec))
      && (q.observed.Some? ==> !Busy(q))
      && q == p.(probe := q.probe, timer := q.timer, observed := q.observed)
  {
    Known(cfg, initial, w, pid);
    hide Inv;
    var p := w.processes[pid];
    assert EffectOf(cfg, w, pid, Observe(delay), Uncontended) == Effect(ObserveEffect(p, delay, w.rec), Nothing);
  }

  // The registrations as an undisturbed scan reads them.
  function Registry(w: World): seq<Option<Registration>> {
    seq(|w.registrations|, i requires 0 <= i < |w.registrations| => Some(w.registrations[i]))
  }

  function VisitSteps(w: World, pid: Pid, delay: U64, now: U64): seq<Step> {
    [Tick(now), Operate(pid, Observe(delay), Uncontended),
     Operate(pid, Takeover(Some(now), true, Choice(now, Registry(w))), Uncontended)]
  }

  // Whether the watchdog of that worker may take the record over, in plain numbers: it is
  // overdue by the grace, and by the preference too unless the worker is the preferred one.
  predicate Opens(cfg: Config, w: World, worker: nat, now: U64) {
    && now >= DueAt(cfg, w) + cfg.grace
    && (now >= DueAt(cfg, w) + cfg.grace + cfg.preference
        || Watch.IsBest(Registry(w), cfg.score, w.rec, now, cfg.grace, |Registry(w)|, worker))
  }

  // The watchdog's test is exactly that.
  lemma GateOpens(cfg: Config, w: World, worker: nat, now: U64)
    requires RecordDated(cfg, w) && now <= MS_MAX
    ensures Watch.Gate(cfg, Activation(w), w.rec, worker, Choice(now, Registry(w))) <==> Opens(cfg, w, worker, now)
  {
    DeadlineIsDue(cfg, w);
    hide Deadline, DueAt, Watch.IsBest, RecordDated;
  }

  // A worker with a current registration that may claim a record of another owner.
  predicate MayRescue(w: World, p: Process) {
    && p.worker < |w.registrations| && Registered(w.registrations[p.worker], p.pid, p.instance)
    && !IsOwn(w.rec, p) && NumbersLeft(w, p)
  }

  // When a visit takes the peer over.
  predicate Rescues(cfg: Config, w: World, p: Process, now: U64) {
    MayRescue(w, p) && Opens(cfg, w, p.worker, now)
  }

  predicate Passes(cfg: Config, w: World, p: Process, now: U64) {
    MayRescue(w, p) && Watch.Gate(cfg, Activation(w), w.rec, p.worker, Choice(now, Registry(w)))
  }

  // A takeover of what was just observed.
  lemma TakesOverExactly(cfg: Config, w: World, pid: Pid, now: U64)
    requires Alive(w, pid) && |w.registrations| == |w.issued| == cfg.workers && w.activatedAt.Some?
    requires var p := w.processes[pid];
      && p.pid == pid && p.registered && !p.stopping && !Busy(p) && Reads(w, p, now)
      && p.worker < |w.registrations| && p.observed == Some(w.rec) && !Names(w.rec, p.worker, p.instance)
    ensures var p := w.processes[pid];
      var v := Exec(cfg, w, Operate(pid, Takeover(Some(now), true, Choice(now, Registry(w))), Uncontended));
      if Passes(cfg, w, p, now) then
        && v.claims == w.claims + [Claim(IdentityOf(v.rec), now, true)]
        && v.rec == ClaimedRecord(cfg, p, w.rec, now)
        && pid in v.processes && v.processes[pid].timer.Some?
      else v.claims == w.claims && v.rec == w.rec
  {
    hide Watch.Gate;
    var p, op := w.processes[pid], Takeover(Some(now), true, Choice(now, Registry(w)));
    if Watch.Gate(cfg, Activation(w), w.rec, p.worker, op.choice) {
      GateIsOverdue(cfg, Activation(w), w.rec, p.worker, op.choice);
      assert EffectOf(cfg, w, pid, op, Uncontended)
        == TakeoverEffect(cfg, p, now, Activation(w), w.registrations[p.worker], w.rec);
    }
  }

  lemma GateIsOverdue(cfg: Config, activatedAt: U64, rec: Record, me: nat, choice: Choice)
    requires Watch.Gate(cfg, activatedAt, rec, me, choice)
    ensures choice.now >= AddTime(Deadline(cfg, activatedAt, rec), cfg.grace)
  {
  }

  // The process owns the next round in a new term, with the health as it was.
  predicate Recovered(w: World, v: World, pid: Pid, now: U64) {
    && v.claims == w.claims + [Claim(IdentityOf(v.rec), now, true)]
    && v.rec.owner == pid && v.rec.round == w.rec.round + 1 && v.rec.term == w.rec.term + 1
    && v.rec.health == w.rec.health
    && pid in v.processes && v.processes[pid].timer.Some?
  }

  // The visit takes the peer over exactly when it may, and otherwise leaves it alone.
  predicate VisitOutcome(w: World, v: World, pid: Pid, now: U64, rescues: bool) {
    if rescues then |v.claims| > |w.claims| && Recovered(w, v, pid, now)
    else v.claims == w.claims && v.rec == w.rec
  }

  // A visit by any live registered process, in any state of any run, whatever round it still
  // holds itself: it takes the peer over if and only if its registration is current, the
  // record is not its own, numbers are left, and the record is overdue by the grace, and by
  // the preference time too unless this worker is the preferred one.
  // Otherwise the visit leaves the record alone.
  lemma VisitClaimsExactly(cfg: Config, start: World, steps: seq<Step>, pid: Pid, delay: U64, now: U64)
    requires cfg.Valid() && Start(cfg, start)
    requires var w := Execute(cfg, start, steps);
      && Alive(w, pid) && w.processes[pid].registered && !w.processes[pid].stopping && w.clock <= now <= MS_MAX
    ensures var w := Execute(cfg, start, steps);
      VisitOutcome(w, Execute(cfg, w, VisitSteps(w, pid, delay, now)), pid, now, Rescues(cfg, w, w.processes[pid], now))
  {
    RunFaithful(cfg, start, steps);
    var w := Execute(cfg, start, steps);
    VisitFrom(cfg, start.rec, w, pid, delay, now);
    GateOpens(cfg, w, w.processes[pid].worker, now);
    hide Inv, Execute, Opens, Watch.Gate, VisitOutcome, VisitSteps, MayRescue;
  }

  lemma LooksAndTakes(cfg: Config, initial: Record, w: World, pid: Pid, delay: U64, now: U64)
    requires cfg.Valid() && Inv(cfg, initial, w) && w.clock == now
    requires Alive(w, pid) && w.processes[pid].registered && !w.processes[pid].stopping
    ensures var s := VisitSteps(w, pid, delay, now);
      VisitOutcome(w, Exec(cfg, Exec(cfg, w, s[1]), s[2]), pid, now, Passes(cfg, w, w.processes[pid], now))
  {
    var s := VisitSteps(w, pid, delay, now);
    Known(cfg, initial, w, pid);
    Observes(cfg, initial, w, pid, delay);
    hide Inv, Watch.Gate;
    var q := ObserveEffect(w.processes[pid], delay, w.rec);
    hide ObserveEffect;
    var t := Put(w, q);
    assert Registry(t) == Registry(w);
    if q.observed.Some? {
      TakesOverExactly(cfg, t, pid, now);
      hide Exec;
      assert Passes(cfg, t, q, now) <==> Passes(cfg, w, w.processes[pid], now);
    } else {
      assert !Enabled(cfg, t, s[2]);
    }
  }

  lemma VisitFrom(cfg: Config, initial: Record, w: World, pid: Pid, delay: U64, now: U64)
    requires cfg.Valid() && Inv(cfg, initial, w) && w.clock <= now <= MS_MAX
    requires Alive(w, pid) && w.processes[pid].registered && !w.processes[pid].stopping
    ensures VisitOutcome(w, Execute(cfg, w, VisitSteps(w, pid, delay, now)), pid, now, Passes(cfg, w, w.processes[pid], now))
  {
    var s := VisitSteps(w, pid, delay, now);
    StepKeeps(cfg, initial, w, Tick(now));
    var u := Exec(cfg, w, Tick(now));
    assert u == w.(clock := now) && Registry(u) == Registry(w);
    ExecuteThree(cfg, w, s[0], s[1], s[2]);
    hide Inv, Watch.Gate, Exec, Execute;
    LooksAndTakes(cfg, initial, u, pid, delay, now);
  }

  // A stalled or orphaned record is always recovered: once deadline, grace and preference are
  // over any live process with a current registration takes it over by looking at it once,
  // and before that, from deadline and grace on, the preferred one does.
  lemma StalledRecordIsRecovered(cfg: Config, start: World, steps: seq<Step>, pid: Pid, delay: U64, now: U64)
    requires cfg.Valid() && Start(cfg, start)
    requires var w := Execute(cfg, start, steps);
      && Alive(w, pid) && w.clock <= now <= MS_MAX && w.rec.round < U64_MAX && w.rec.term < U64_MAX
      && var p := w.processes[pid];
      && p.registered && !p.stopping && p.worker < |w.registrations|
      && Registered(w.registrations[p.worker], pid, p.instance) && !IsOwn(w.rec, p)
    requires var w := Execute(cfg, start, steps);
      || now >= DueAt(cfg, w) + cfg.grace + cfg.preference
      || (now >= DueAt(cfg, w) + cfg.grace
          && Watch.IsBest(Registry(w), cfg.score, w.rec, now, cfg.grace, |Registry(w)|, w.processes[pid].worker))
    ensures var w := Execute(cfg, start, steps);
      Recovered(w, Execute(cfg, w, VisitSteps(w, pid, delay, now)), pid, now)
  {
    hide Execute, VisitSteps, Start, Recovered;
    VisitClaimsExactly(cfg, start, steps, pid, delay, now);
    InvAtStart(cfg, start);
    RunKeeps(cfg, start.rec, start, steps);
    Known(cfg, start.rec, Execute(cfg, start, steps), pid);
    hide Inv;
  }

  // And the preferred one exists: before the preference time is over, whenever any worker is
  // fresh, exactly one worker may take an overdue record over.
  lemma OneRescuer(cfg: Config, w: World, now: U64, candidate: nat)
    requires DueAt(cfg, w) + cfg.grace <= now < DueAt(cfg, w) + cfg.grace + cfg.preference
    requires candidate < |w.registrations| && Watch.Fresh(Some(w.registrations[candidate]), candidate, w.rec, now, cfg.grace)
    ensures exists i :: 0 <= i < |w.registrations| && Opens(cfg, w, i, now)
    ensures forall i: nat, j: nat :: Opens(cfg, w, i, now) && Opens(cfg, w, j, now) ==> i == j
  {
    var view := Registry(w);
    Watch.BestExists(view, cfg.score, w.rec, now, cfg.grace, |view|, candidate);
    var i :| 0 <= i < |view| && Watch.IsBest(view, cfg.score, w.rec, now, cfg.grace, |view|, i);
    assert Opens(cfg, w, i, now);
    forall a: nat, b: nat | Opens(cfg, w, a, now) && Opens(cfg, w, b, now)
      ensures a == b
    {
      Watch.BestIsUnique(view, cfg.score, w.rec, now, cfg.grace, a, b);
    }
  }

  // ---- The condition cannot be dropped ----

  const SMALL: Config := Config(1, Thresholds(1, 1), 100, 50, 1000, 1000, _ => 0, true)

  const SMALL_RECORD: Record := Record(Fresh(false), 0, NO_PID, 0, 0, 0, 0, 0, Initial)

  function SmallStart(t: U64): World {
    World(t, None, [Registration(NO_PID, 0, 0, false)], SMALL_RECORD, map[], {}, [], [], [[]])
  }

  // At time t process 1 claims and commits a round ...
  function RunOnce(t: U64): seq<Step> {
    [Spawn(1, 0), Activate(1, t), Operate(1, Register(t), Uncontended), StartTimer(1, 0),
     Operate(1, Begin(Some(t), true), Uncontended), Fix(1, Success(None)), Operate(1, Submit(Some(t), false), Uncontended)]
  }

  lemma ExecuteOneMore(cfg: Config, w: World, steps: seq<Step>, s: Step)
    ensures Execute(cfg, w, steps + [s]) == Exec(cfg, Execute(cfg, w, steps), s)
  {
    hide Exec;
    assert (steps + [s])[..|steps|] == steps;
  }

  lemma RegisteredState(t: U64) returns (w: World)
    requires t <= MS_MAX
    ensures w == Execute(SMALL, SmallStart(t), RunOnce(t)[..3])
    ensures w.registrations == [Registration(1, 1, t, false)] && |w.issued| == 1
    ensures w.clock == t && w.activatedAt == Some(t) && w.rec == SMALL_RECORD && w.claims == []
    ensures w.processes == map[1 := NewProcess(1, 0, t).(registered := true, instance := 1)] && w.alive == {1}
  {
    var s := RunOnce(t);
    var start := SmallStart(t);
    assert s[..0] == [] && s[..1] == [] + [s[0]] && s[..2] == s[..1] + [s[1]] && s[..3] == s[..2] + [s[2]];
    ExecuteOneMore(SMALL, start, [], s[0]);
    ExecuteOneMore(SMALL, start, s[..1], s[1]);
    ExecuteOneMore(SMALL, start, s[..2], s[2]);
    hide Execute;
    var w2 := Exec(SMALL, Exec(SMALL, start, s[0]), s[1]);
    assert w2.processes == map[1 := NewProcess(1, 0, t)];
    w := Exec(SMALL, w2, s[2]);
  }

  function SmallClaim(t: U64): Record
    requires t <= MS_MAX
  {
    Record(Fresh(false), t, 1, 0, 1, 1, 1, t + 50, Preparing)
  }

  lemma ClaimedState(t: U64) returns (w: World)
    requires t <= MS_MAX
    ensures w == Execute(SMALL, SmallStart(t), RunOnce(t)[..5])
    ensures w.registrations == [Registration(1, 1, t, false)] && |w.issued| == 1
    ensures w.clock == t && w.activatedAt == Some(t) && w.alive == {1}
    ensures w.rec == SmallClaim(t) && w.claims == [Claim(IdentityOf(w.rec), t, false)]
    ensures w.processes == map[1 := NewProcess(1, 0, t).(
      registered := true, instance := 1, timer := Some(100),
      probe := Some(Probe(1, 1, 1, t, t + 50, Failure, true, false, false, false)))]
  {
    var s := RunOnce(t);
    w := RegisteredState(t);
    ExecuteOneMore(SMALL, SmallStart(t), s[..3], s[3]);
    ExecuteOneMore(SMALL, SmallStart(t), s[..4], s[4]);
    assert s[..4] == s[..3] + [s[3]] && s[..5] == s[..4] + [s[4]];
    hide Execute;
    w := Exec(SMALL, Exec(SMALL, w, s[3]), s[4]);
  }

  lemma FixedState(t: U64) returns (w: World)
    requires t <= MS_MAX
    ensures w == Execute(SMALL, SmallStart(t), RunOnce(t)[..6])
    ensures w.registrations == [Registration(1, 1, t, false)] && |w.issued| == 1
    ensures w.clock == t && w.activatedAt == Some(t) && w.alive == {1}
    ensures w.rec == SmallClaim(t) && w.claims == [Claim(IdentityOf(w.rec), t, false)]
    ensures w.processes == map[1 := NewProcess(1, 0, t).(
      registered := true, instance := 1, timer := Some(100),
      probe := Some(Probe(1, 1, 1, t, t + 50, Success(None), false, true, false, false)))]
  {
    var s := RunOnce(t);
    w := ClaimedState(t);
    ExecuteOneMore(SMALL, SmallStart(t), s[..5], s[5]);
    assert s[..6] == s[..5] + [s[5]];
    hide Execute;
    w := Exec(SMALL, w, s[5]);
  }

  lemma CommittedState(t: U64) returns (w: World)
    requires t <= MS_MAX
    ensures w == Execute(SMALL, SmallStart(t), RunOnce(t))
    ensures w.registrations == [Registration(1, 1, t, false)] && |w.issued| == 1
    ensures w.clock == t && w.activatedAt == Some(t)
    ensures w.processes.Keys == {1} && 1 in w.alive
    ensures var p := w.processes[1];
      && p.pid == 1 && p.worker == 0 && p.instance == 1 && p.registered && !p.stopping
      && p.timer.Some? && p.probe.Some? && !Busy(p) && p.seen == t
    ensures Names(w.rec, 0, 1) && w.rec.phase == Waiting && w.rec.started == t && w.rec.round == 1
    ensures w.claims == [Claim(Identity(1, 0, 1, 1, 1), t, false)]
  {
    var s := RunOnce(t);
    w := FixedState(t);
    ExecuteOneMore(SMALL, SmallStart(t), s[..6], s[6]);
    assert s == s[..6] + [s[6]];
    hide Execute, Apply;
    w := Exec(SMALL, w, s[6]);
  }

  // ... and when that is time 0, its timer starts the next round at once: a start at 0 reads
  // as no start at all. Cadence needs the previous start to be recorded.
  lemma RoundAtZeroRepeats()
    ensures Start(SMALL, SmallStart(0))
    ensures var w := Execute(SMALL, SmallStart(0), RunOnce(0) + [Operate(1, Begin(Some(0), true), Uncontended)]);
      && |w.claims| == 2 && !w.claims[1].takeover
      && w.claims[0].start == w.claims[1].start == 0
  {
    var w := CommittedState(0);
    var op := Begin(Some(0), true);
    ExecuteOneMore(SMALL, SmallStart(0), RunOnce(0), Operate(1, op, Uncontended));
    hide Execute;
    assert EffectOf(SMALL, w, 1, op, Uncontended)
      == BeginEffect(SMALL, w.processes[1], 0, w.registrations[0], w.rec);
  }

  lemma SupersededState() returns (w: World)
    ensures w == Execute(SMALL, SmallStart(5), RunOnce(5) + [Spawn(2, 0)] + [Operate(2, Register(5), Uncontended)])
    ensures w.registrations == [Registration(2, 2, 5, false)] && |w.issued| == 1
    ensures 1 in w.processes && 1 in w.alive && w.clock == 5
    ensures var p := w.processes[1];
      && p.pid == 1 && p.worker == 0 && p.instance == 1 && p.registered && !p.stopping
      && p.timer.Some? && p.probe.Some? && !Busy(p) && p.seen == 5
    ensures Names(w.rec, 0, 1)
  {
    var v := CommittedState(5);
    var start, run := SmallStart(5), RunOnce(5);
    ExecuteOneMore(SMALL, start, run, Spawn(2, 0));
    ExecuteOneMore(SMALL, start, run + [Spawn(2, 0)], Operate(2, Register(5), Uncontended));
    hide Execute, RunOnce;
    w := Exec(SMALL, Exec(SMALL, v, Spawn(2, 0)), Operate(2, Register(5), Uncontended));
  }

  // A registered process that the record still names can be without a timer, namely when
  // its registration was superseded by process 2: OwnerIsAwake needs the current registration.
  lemma SupersededOwnerSleeps()
    ensures Start(SMALL, SmallStart(5))
    ensures var supersede := [Spawn(2, 0), Operate(2, Register(5), Uncontended), Operate(1, Begin(Some(5), true), Uncontended)];
      var w := Execute(SMALL, SmallStart(5), RunOnce(5) + supersede);
      1 in w.processes &&
      var p := w.processes[1];
      && p.registered && !p.stopping && p.worker < |w.registrations| && Names(w.rec, p.worker, p.instance)
      && p.timer == None && !Current(w.registrations[p.worker], 1, p.instance)
  {
    var w := SupersededState();
    var run, op := RunOnce(5) + [Spawn(2, 0)] + [Operate(2, Register(5), Uncontended)], Begin(Some(5), true);
    ExecuteOneMore(SMALL, SmallStart(5), run, Operate(1, op, Uncontended));
    assert run + [Operate(1, op, Uncontended)]
      == RunOnce(5) + [Spawn(2, 0), Operate(2, Register(5), Uncontended), Operate(1, op, Uncontended)];
    hide Execute, RunOnce;
    assert EffectOf(SMALL, w, 1, op, Uncontended)
      == BeginEffect(SMALL, w.processes[1], 5, w.registrations[0], w.rec);
  }
}
