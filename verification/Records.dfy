// What the shared record shows in every state of every run: its deadline, its delays and
// times, and what an observation of it is worth later.

module Records {
  import opened Time
  import opened HealthCounter
  import opened Protocol
  import opened World
  import opened Invariant
  import opened Operations
  import Delay
  import Watch

  // ---- The four ways a step can leave the record ----

  predicate Unmoved(w: World, v: World) { v.rec == w.rec && v.claims == w.claims && v.commits == w.commits }

  predicate Announces(w: World, v: World, pid: Pid)
    requires pid in w.processes && w.processes[pid].worker < |w.registrations|
  {
    && InCharge(w, pid) && w.rec.phase == Preparing && v.claims == w.claims && v.commits == w.commits
    && w.processes[pid].probe.value.prepared
    && v.rec == w.rec.(phase := Inflight, deadline := w.processes[pid].probe.value.deadline)
  }

  predicate Acts(w: World, s: Step) {
    s.Operate? && s.pid in w.processes && w.processes[s.pid].worker < |w.registrations|
  }

  predicate Announced(w: World, v: World, s: Step) { Acts(w, s) && s.op.Announce? && Announces(w, v, s.pid) }

  predicate Committed(cfg: Config, w: World, v: World, s: Step) {
    && Acts(w, s) && s.op.Submit? && s.op.clock.Some? && InCharge(w, s.pid) && Running(w.rec) && !w.processes[s.pid].stopping
    && Commits(cfg, w, v, s.pid, s.op.clock.value)
  }

  // A process that is not stopping and whose registration is current.
  predicate MayAct(w: World, pid: Pid)
    requires pid in w.processes && w.processes[pid].worker < |w.registrations|
  {
    !w.processes[pid].stopping && Registered(Entry(w, pid), pid, w.processes[pid].instance)
  }

  predicate Claimed(cfg: Config, w: World, v: World, s: Step) {
    && Acts(w, s) && (s.op.Begin? || s.op.Takeover?) && s.op.clock.Some? && MayAct(w, s.pid)
    && Claims(cfg, w, v, s.pid, s.op.clock.value, s.op.Takeover?)
  }

  predicate Moves(cfg: Config, w: World, v: World, s: Step) {
    Unmoved(w, v) || Announced(w, v, s) || Committed(cfg, w, v, s) || Claimed(cfg, w, v, s)
  }

  // The context of a round keeps its identity, start and deadline.
  predicate SameRound(a: Probe, b: Probe) {
    && b.instance == a.instance && b.term == a.term && b.round == a.round
    && b.started == a.started && b.deadline == a.deadline && b.prepared == a.prepared
  }

  // A process keeps its name for good, and its round unless it claims another.
  predicate SameProcess(p: Process, q: Process) {
    && q.pid == p.pid && q.worker == p.worker
    && (p.registered ==> q.registered && q.instance == p.instance)
    && (p.probe.Some? ==> q.probe.Some? && SameRound(p.probe.value, q.probe.value))
    && (p.probe.None? && q.probe.Some? ==> q.probe.value.round == 0)
    && (p.stopping ==> q.stopping)
    && (q.stopping && (p.stopping ==> Silent(p)) ==> Silent(q))
  }

  predicate Keeps(w: World, v: World, pid: Pid) {
    pid in w.processes && pid in v.processes && SameProcess(w.processes[pid], v.processes[pid])
  }

  // The same worker of the same registration.
  predicate IsOwn(rec: Record, p: Process) { rec.worker == p.worker && rec.instance == p.instance }

  // What a process observed stays, is forgotten, or is the present record of another owner.
  predicate Looks(w: World, v: World, pid: Pid) {
    pid in w.processes && pid in v.processes &&
    var p, q := w.processes[pid], v.processes[pid];
    || q.observed == p.observed || q.observed == None
    || (q.observed == Some(w.rec) && p.registered && !IsOwn(w.rec, p) && Unmoved(w, v))
  }

  // A TCP round that is prepared has the timeout from then on.
  predicate Prepares(cfg: Config, w: World, v: World, s: Step) {
    && s.Prepare? && s.pid in w.processes && w.processes[s.pid].probe.Some? && s.pid in v.processes
    && var own := w.processes[s.pid].probe.value;
    && !own.prepared && own.active && v.rec == w.rec
    && v.processes[s.pid].probe == Some(own.(prepared := true, deadline :=
         if cfg.tcp && s.clock.Some? then Min(s.clock.value + cfg.timeout, U64_MAX) else own.deadline))
    && v.processes[s.pid] == w.processes[s.pid].(probe := v.processes[s.pid].probe, seen := v.processes[s.pid].seen)
  }

  // What a step does to the processes: only a claim or a preparation changes a round.
  ghost predicate Turns(cfg: Config, w: World, v: World, s: Step) {
    && (forall pid :: pid in w.processes ==>
          || Keeps(w, v, pid)
          || (!s.Tick? && s.pid == pid && (Prepares(cfg, w, v, s) || Claimed(cfg, w, v, s))))
    && (forall pid :: pid in w.processes ==> Looks(w, v, pid))
    && (forall pid :: pid in v.processes && pid !in w.processes ==> v.processes[pid].probe.None? && v.processes[pid].observed.None? && !v.processes[pid].stopping)
  }

  predicate OthersSame(w: World, v: World, pid: Pid) {
    pid in v.processes && v.processes == w.processes[pid := v.processes[pid]]
  }

  // What an operation does, in these terms.
  predicate Performs(cfg: Config, w: World, v: World, pid: Pid, op: Op) {
    && Moves(cfg, w, v, Operate(pid, op, Uncontended)) && OthersSame(w, v, pid)
    && (Keeps(w, v, pid) || Claimed(cfg, w, v, Operate(pid, op, Uncontended))) && Looks(w, v, pid)
  }

  lemma RegistryPerforms(cfg: Config, w: World, pid: Pid, op: Op)
    requires May(cfg, w, pid, op) && (op.Register? || op.Exit? || op.Validate? || op.Observe?)
    ensures Performs(cfg, w, After(cfg, w, pid, op), pid, op)
  {
    match op {
      case Register(now) => RegisterDoes(cfg, w, pid, now);
      case Exit => ExitDoes(cfg, w, pid);
      case Validate => ValidateDoes(cfg, w, pid);
      case Observe(delay) => ObserveDoes(cfg, w, pid, delay);
    }
    hide After, Exec, Announced, Committed, Claimed;
  }

  lemma AnnouncePerforms(cfg: Config, w: World, pid: Pid)
    requires May(cfg, w, pid, Announce)
    ensures Performs(cfg, w, After(cfg, w, pid, Announce), pid, Announce)
  {
    AnnounceDoes(cfg, w, pid);
    hide After, Exec, Claimed, Committed;
  }

  lemma SubmitPerforms(cfg: Config, w: World, pid: Pid, op: Op)
    requires May(cfg, w, pid, op) && op.Submit?
    ensures Performs(cfg, w, After(cfg, w, pid, op), pid, op)
  {
    SubmitDoes(cfg, w, pid, op.clock, op.quit);
    hide After, Exec, Claimed, Announced, Delay.Record;
  }

  lemma ClaimPerforms(cfg: Config, w: World, v: World, pid: Pid, op: Op)
    requires pid in w.processes && w.processes[pid].worker < |w.registrations| && (op.Begin? || op.Takeover?)
    requires op.clock.Some? ==> (MayAct(w, pid) && Claims(cfg, w, v, pid, op.clock.value, op.Takeover?)) || Waits(w, v, pid)
    requires op.clock.None? ==> Waits(w, v, pid)
    ensures Performs(cfg, w, v, pid, op)
  {
    hide Announced, Committed;
  }

  // A claim that did not go through.
  predicate Waits(w: World, v: World, pid: Pid) { OnlyProcess(w, v, pid) && Keeps(w, v, pid) && Looks(w, v, pid) }

  lemma BegunWaits(cfg: Config, w: World, v: World, pid: Pid, clock: Option<U64>, memory: bool)
    requires pid in w.processes && w.processes[pid].worker < |w.registrations| && w.processes[pid].pid == pid
    requires Begun(cfg, w, v, pid, clock, memory)
    ensures (clock.Some? && MayAct(w, pid) && Claims(cfg, w, v, pid, clock.value, false)) || Waits(w, v, pid)
  {
    hide Claims, Due, OwnShard;
  }

  lemma TakenOverWaits(cfg: Config, w: World, v: World, pid: Pid, clock: Option<U64>, memory: bool)
    requires pid in w.processes && w.processes[pid].worker < |w.registrations| && w.processes[pid].observed.Some?
    requires w.processes[pid].pid == pid && TakenOver(cfg, w, v, pid, clock, memory)
    ensures (clock.Some? && MayAct(w, pid) && Claims(cfg, w, v, pid, clock.value, true)) || Waits(w, v, pid)
  {
    hide Claims;
  }

  lemma OperationPerforms(cfg: Config, w: World, pid: Pid, op: Op)
    requires May(cfg, w, pid, op)
    ensures Performs(cfg, w, After(cfg, w, pid, op), pid, op)
  {
    hide Performs, After, Begun, TakenOver, Waits, Claims, MayAct;
    if op.Announce? {
      AnnouncePerforms(cfg, w, pid);
    } else if op.Submit? {
      SubmitPerforms(cfg, w, pid, op);
    } else if op.Begin? || op.Takeover? {
      match op {
        case Begin(clock, memory) =>
          BeginDoes(cfg, w, pid, clock, memory);
          BegunWaits(cfg, w, After(cfg, w, pid, op), pid, clock, memory);
        case Takeover(clock, memory, choice) =>
          TakeoverDoes(cfg, w, pid, clock, memory, choice);
          TakenOverWaits(cfg, w, After(cfg, w, pid, op), pid, clock, memory);
      }
      ClaimPerforms(cfg, w, After(cfg, w, pid, op), pid, op);
    } else {
      RegistryPerforms(cfg, w, pid, op);
    }
  }

  lemma StuckPerforms(cfg: Config, w: World, pid: Pid, op: Op, contention: Contention)
    requires May(cfg, w, pid, op) && Enabled(cfg, w, Operate(pid, op, contention))
    ensures var v := Exec(cfg, w, Operate(pid, op, contention));
      v == After(cfg, w, pid, op) || (Unmoved(w, v) && OthersSame(w, v, pid) && Keeps(w, v, pid) && Looks(w, v, pid))
  {
    if Enter(cfg, op, w.processes[pid]).None? {
      StuckDoes(cfg, w, pid, op, contention);
      hide Exec, After, Enabled, Enter;
    } else {
      hide Critical, Contended;
    }
  }

  lemma PerformsMoves(cfg: Config, w: World, v: World, pid: Pid, op: Op, contention: Contention)
    requires pid in w.processes && w.processes[pid].worker < |w.registrations|
    requires Performs(cfg, w, v, pid, op) || (Unmoved(w, v) && OthersSame(w, v, pid) && Keeps(w, v, pid) && Looks(w, v, pid))
    ensures Moves(cfg, w, v, Operate(pid, op, contention)) && Turns(cfg, w, v, Operate(pid, op, contention))
  {
    hide Commits, Claims, InCharge;
  }

  lemma OperateMoves(cfg: Config, w: World, pid: Pid, op: Op, contention: Contention)
    requires May(cfg, w, pid, op)
    ensures var s := Operate(pid, op, contention);
      Moves(cfg, w, Exec(cfg, w, s), s) && Turns(cfg, w, Exec(cfg, w, s), s)
  {
    OperationPerforms(cfg, w, pid, op);
    StuckPerforms(cfg, w, pid, op, contention);
    hide Exec, Performs, After, Moves, Turns, Unmoved, OthersSame, Keeps;
    PerformsMoves(cfg, w, Exec(cfg, w, Operate(pid, op, contention)), pid, op, contention);
  }

  lemma LocalMoves(cfg: Config, w: World, s: Step)
    requires forall pid :: pid in w.processes ==> w.processes[pid].pid == pid
    requires !s.Operate? || !Enabled(cfg, w, s)
    ensures Unmoved(w, Exec(cfg, w, s)) && Turns(cfg, w, Exec(cfg, w, s), s)
  {
    hide Claimed, Land, EffectOf, Chosen;
  }

  // Every step moves the record in one of the four ways and turns at most one process.
  lemma StepMoves(cfg: Config, initial: Record, w: World, s: Step)
    requires Inv(cfg, initial, w)
    ensures Moves(cfg, w, Exec(cfg, w, s), s) && Turns(cfg, w, Exec(cfg, w, s), s)
  {
    assert forall pid :: pid in w.processes ==> w.processes[pid].pid == pid;
    hide Inv, Announced, Committed, Claimed, Exec, Turns, Unmoved;
    if Enabled(cfg, w, s) && s.Operate? {
      OperateMoves(cfg, w, s.pid, s.op, s.contention);
    } else {
      LocalMoves(cfg, w, s);
    }
  }

  // ---- Deadlines ----

  function Capped(n: nat): U64 { Min(n, U64_MAX) }

  // The process of the newest claim, which the record names.
  predicate HolderDated(w: World) {
    && w.rec.owner in w.processes && w.processes[w.rec.owner].probe.Some?
    && var own := w.processes[w.rec.owner].probe.value;
    own.round == w.rec.round && own.prepared && own.deadline == w.rec.deadline
  }

  // The deadline and time the record shows, phase by phase.
  predicate RecordDated(cfg: Config, w: World) {
    match w.rec.phase
    case Initial => w.commits == []
    case Preparing => w.rec.deadline == Capped(w.rec.started + cfg.timeout)
    case Inflight => HolderDated(w)
    case Waiting =>
      w.commits != [] && w.rec.deadline == Max(Capped(w.rec.started + cfg.interval), w.commits[|w.commits| - 1].at)
  }

  predicate ProbeDated(cfg: Config, p: Process) {
    p.probe.Some? && p.probe.value.round > 0 && (!p.probe.value.prepared || !cfg.tcp) ==>
      p.probe.value.deadline == Capped(p.probe.value.started + cfg.timeout)
  }

  predicate Timed(w: World) {
    w.commits != [] ==> w.rec.health.accessTime == w.commits[|w.commits| - 1].at
  }

  ghost predicate Dated(cfg: Config, w: World) {
    && RecordDated(cfg, w) && Timed(w)
    && forall pid :: pid in w.processes ==> ProbeDated(cfg, w.processes[pid])
  }

  lemma ProbesDate(cfg: Config, w: World, v: World, s: Step)
    requires Dated(cfg, w) && Turns(cfg, w, v, s)
    ensures forall pid :: pid in v.processes ==> ProbeDated(cfg, v.processes[pid])
  {
    hide RecordDated, Timed, InCharge;
    forall pid | pid in v.processes ensures ProbeDated(cfg, v.processes[pid]) {
      if pid in w.processes {
        assert ProbeDated(cfg, w.processes[pid]);
      }
    }
  }

  lemma RecordDates(cfg: Config, w: World, v: World, s: Step)
    requires Dated(cfg, w) && Moves(cfg, w, v, s) && Turns(cfg, w, v, s)
    ensures RecordDated(cfg, v) && Timed(v)
  {
    hide ProbeDated;
    if Claimed(cfg, w, v, s) || Committed(cfg, w, v, s) {
      hide Turns, InCharge, HolderDated;
      assert v.commits != [] || Claimed(cfg, w, v, s);
    } else if Announced(w, v, s) {
    }
  }

  lemma StepDates(cfg: Config, initial: Record, w: World, s: Step)
    requires cfg.Valid() && Inv(cfg, initial, w) && Dated(cfg, w)
    ensures Dated(cfg, Exec(cfg, w, s))
  {
    StepMoves(cfg, initial, w, s);
    hide Exec, Inv, Moves, Turns, RecordDated, ProbeDated, Timed;
    RecordDates(cfg, w, Exec(cfg, w, s), s);
    ProbesDate(cfg, w, Exec(cfg, w, s), s);
  }

  // ---- Observations ----

  function Rank(phase: Phase): nat {
    match phase case Initial => 0 case Preparing => 1 case Inflight => 2 case Waiting => 3
  }

  // An observation is of another owner's record, and of a past one: if round and phase are
  // still the same, so is everything else.
  predicate Witnessed(rec: Record, p: Process) {
    p.observed.Some? ==>
      var was := p.observed.value;
      && p.registered && !IsOwn(was, p) && was.round <= rec.round
      && (was.round == rec.round ==> Rank(was.phase) <= Rank(rec.phase) && (was.phase == rec.phase ==> was == rec))
  }

  ghost predicate AllWitnessed(w: World) {
    forall pid :: pid in w.processes ==> Witnessed(w.rec, w.processes[pid])
  }

  lemma RecordAdvances(cfg: Config, w: World, v: World, s: Step)
    requires Moves(cfg, w, v, s)
    ensures v.rec == w.rec || v.rec.round > w.rec.round || (v.rec.round == w.rec.round && Rank(v.rec.phase) > Rank(w.rec.phase))
  {
  }

  lemma WitnessKept(cfg: Config, w: World, v: World, s: Step, pid: Pid)
    requires pid in w.processes && Witnessed(w.rec, w.processes[pid]) && Moves(cfg, w, v, s) && Looks(w, v, pid)
    requires Keeps(w, v, pid) || Prepares(cfg, w, v, s) || Claimed(cfg, w, v, s)
    requires Keeps(w, v, pid) || (!s.Tick? && s.pid == pid)
    ensures pid in v.processes && Witnessed(v.rec, v.processes[pid])
  {
    RecordAdvances(cfg, w, v, s);
    hide Moves, Rank, Turns, InCharge, Running;
  }

  lemma StepWitnesses(cfg: Config, initial: Record, w: World, s: Step)
    requires Inv(cfg, initial, w) && AllWitnessed(w)
    ensures AllWitnessed(Exec(cfg, w, s))
  {
    StepMoves(cfg, initial, w, s);
    var v := Exec(cfg, w, s);
    hide Exec, Inv, Moves, Looks, Claimed, Prepares, Keeps;
    forall pid | pid in v.processes ensures Witnessed(v.rec, v.processes[pid]) {
      if pid in w.processes {
        assert Witnessed(w.rec, w.processes[pid]);
        WitnessKept(cfg, w, v, s, pid);
      }
    }
  }

  // ---- Delays ----

  // The delays measured by the committed rounds, in order.
  function Samples(commits: seq<Commit>): seq<U64> {
    if commits == [] then []
    else
      var last := commits[|commits| - 1].outcome;
      Samples(commits[..|commits| - 1]) + if last.Success? && last.sample.Some? then [last.sample.value] else []
  }

  predicate Sampled(initial: Health, w: World) {
    && w.rec.health.delay == Delay.RecordAll(initial.delay, Samples(w.commits))
    && (w.commits == [] ==> w.rec.health == initial)
  }

  lemma OneMoreSample(s: Delay.Stats, samples: seq<U64>, sample: U64)
    ensures Delay.RecordAll(s, samples + [sample]) == Delay.Record(Delay.RecordAll(s, samples), sample)
  {
    hide Delay.Record;
    assert (samples + [sample])[..|samples|] == samples;
  }

  lemma CommitSamples(cfg: Config, initial: Health, w: World, v: World, s: Step)
    requires Committed(cfg, w, v, s) && Sampled(initial, w)
    ensures Sampled(initial, v)
  {
    hide Delay.Record, Delay.RecordAll;
    var own := w.processes[s.pid].probe.value;
    assert v.commits[..|v.commits| - 1] == w.commits;
    if own.outcome.Success? && own.outcome.sample.Some? {
      OneMoreSample(initial.delay, Samples(w.commits), own.outcome.sample.value);
    } else {
      assert Samples(v.commits) == Samples(w.commits);
    }
  }

  lemma StepSamples(cfg: Config, initial: Record, w: World, s: Step)
    requires Inv(cfg, initial, w) && Sampled(initial.health, w)
    ensures Sampled(initial.health, Exec(cfg, w, s))
  {
    StepMoves(cfg, initial, w, s);
    var v := Exec(cfg, w, s);
    hide Exec, Inv, Turns, Committed, Samples, Delay.RecordAll;
    if Committed(cfg, w, v, s) {
      CommitSamples(cfg, initial.health, w, v, s);
    }
  }

  // ---- Runs ----

  ghost predicate Faithful(cfg: Config, initial: Record, w: World) {
    Inv(cfg, initial, w) && Dated(cfg, w) && AllWitnessed(w) && Sampled(initial.health, w)
  }

  lemma {:induction false} RunFaithful(cfg: Config, start: World, steps: seq<Step>)
    requires cfg.Valid() && Start(cfg, start)
    ensures Faithful(cfg, start.rec, Execute(cfg, start, steps))
  {
    InvAtStart(cfg, start);
    hide Inv, Dated, AllWitnessed, Sampled;
    if steps == [] {
      assert Dated(cfg, start) && AllWitnessed(start) && Sampled(start.rec.health, start);
    } else {
      var rest, s := steps[..|steps| - 1], steps[|steps| - 1];
      var w := Execute(cfg, start, rest);
      RunFaithful(cfg, start, rest);
      StepKeeps(cfg, start.rec, w, s);
      StepDates(cfg, start.rec, w, s);
      StepWitnesses(cfg, start.rec, w, s);
      StepSamples(cfg, start.rec, w, s);
    }
  }

  // When the published record is due, in plain numbers: a record nobody claimed counts from
  // the activation, a waiting one from the next start or the late commit, a round being
  // prepared from its own start, and a round in flight has the deadline of its process.
  function DueAt(cfg: Config, w: World): nat {
    match w.rec.phase
    case Initial => Activation(w) + Max(cfg.interval, 1000) + Max(cfg.interval / 2, 1)
    case Preparing => w.rec.started + cfg.timeout
    case Waiting =>
      Max(w.rec.started + cfg.interval, if w.commits == [] then 0 else w.commits[|w.commits| - 1].at)
    case Inflight =>
      if w.rec.owner in w.processes && w.processes[w.rec.owner].probe.Some? then w.processes[w.rec.owner].probe.value.deadline else 0
  }

  // What the decisions go by is exactly that, up to saturation.
  lemma DeadlineIsDue(cfg: Config, w: World)
    requires RecordDated(cfg, w)
    ensures Deadline(cfg, Activation(w), w.rec) == Capped(DueAt(cfg, w))
  {
  }

  // In every state of every run: the record's deadline, phase by phase, and a round's own
  // deadline is its start plus the timeout, for TCP until the connection is prepared.
  lemma PublishedDeadline(cfg: Config, start: World, steps: seq<Step>)
    requires cfg.Valid() && Start(cfg, start)
    ensures var w := Execute(cfg, start, steps);
      && (w.rec.phase != Initial ==> w.rec.deadline == Capped(DueAt(cfg, w)))
      && (w.rec.phase == Waiting ==> w.commits != [])
      && (w.rec.phase == Inflight ==>
            && w.rec.owner in w.processes && w.processes[w.rec.owner].probe.Some?
            && w.processes[w.rec.owner].probe.value.round == w.rec.round)
      && (forall pid :: pid in w.processes ==> ProbeDated(cfg, w.processes[pid]))
  {
    RunFaithful(cfg, start, steps);
    hide Inv, Execute, ProbeDated;
  }

  // A takeover waits until the record is overdue: the owner had all its time, and the grace.
  lemma TakeoverWaits(cfg: Config, start: World, steps: seq<Step>, s: Step)
    requires cfg.Valid() && Start(cfg, start) && s.Operate? && s.op.Takeover?
    ensures var w := Execute(cfg, start, steps);
      var v := Exec(cfg, w, s);
      v.claims != w.claims ==>
        && |v.claims| == |w.claims| + 1 && v.claims[|w.claims|].takeover
        && v.claims[|w.claims|].start >= DueAt(cfg, w) + cfg.grace
  {
    RunFaithful(cfg, start, steps);
    var w := Execute(cfg, start, steps);
    var v := Exec(cfg, w, s);
    hide Execute;
    StepMoves(cfg, start.rec, w, s);
    if v.claims != w.claims {
      OverdueWhenTaken(cfg, start.rec, w, s);
    }
  }

  lemma OverdueWhenTaken(cfg: Config, initial: Record, w: World, s: Step)
    requires Faithful(cfg, initial, w) && s.Operate? && s.op.Takeover? && Claimed(cfg, w, Exec(cfg, w, s), s)
    ensures s.op.clock.value >= DueAt(cfg, w) + cfg.grace
  {
    var v := Exec(cfg, w, s);
    assert Enabled(cfg, w, s);
    TakenWhole(cfg, initial, w, s);
    DeadlineIsDue(cfg, w);
    hide Inv, Dated, AllWitnessed, Sampled, DueAt, Deadline, Exec, Watch.IsBest;
  }

  // What is taken over is the record that was observed, the whole of it.
  lemma TakenWhole(cfg: Config, initial: Record, w: World, s: Step)
    requires Faithful(cfg, initial, w) && s.Operate? && s.op.Takeover? && Claimed(cfg, w, Exec(cfg, w, s), s)
    ensures Enabled(cfg, w, s) && w.processes[s.pid].observed == Some(w.rec)
    ensures w.clock <= MS_MAX && s.op.clock.value <= w.clock
  {
    assert Enabled(cfg, w, s) && w.processes[s.pid].pid == s.pid;
    assert Witnessed(w.rec, w.processes[s.pid]);
    StuckPerforms(cfg, w, s.pid, s.op, s.contention);
    TakeoverDoes(cfg, w, s.pid, s.op.clock, s.op.memory, s.op.choice);
    hide Inv, Dated, AllWitnessed, Sampled, Exec, Chosen;
  }

  // A takeover, in any state of any run, claims if and only if the process observed the very
  // record that is published, its registration is current, it is free, and numbers are left;
  // otherwise it only forgets what it observed.
  lemma TakeoverExactly(cfg: Config, start: World, steps: seq<Step>, pid: Pid, clock: Option<U64>, memory: bool, choice: Choice)
    requires cfg.Valid() && Start(cfg, start)
    requires May(cfg, Execute(cfg, start, steps), pid, Takeover(clock, memory, choice))
    ensures var w := Execute(cfg, start, steps);
      var v := After(cfg, w, pid, Takeover(clock, memory, choice));
      var p := w.processes[pid];
      if Tries(p, clock, memory) && Registered(Entry(w, pid), pid, p.instance) && p.observed == Some(w.rec) && NumbersLeft(w, p)
      then Claims(cfg, w, v, pid, clock.value, true)
      else OnlyProcess(w, v, pid) && v.processes[pid] == Seen(Idle(p, memory).(observed := None), clock)
  {
    RunFaithful(cfg, start, steps);
    var w := Execute(cfg, start, steps);
    assert Witnessed(w.rec, w.processes[pid]);
    TakeoverDoes(cfg, w, pid, clock, memory, choice);
    hide Execute, Inv, Dated, AllWitnessed, Sampled, Claims, After;
  }

  // ---- What the published delays mean ----

  predicate Bounded(d: Delay.Stats) { d.count > 0 ==> d.max <= MS_MAX }

  lemma {:induction false} NothingRefused(s: Delay.Stats, samples: seq<U64>)
    requires Delay.Sound(s) && Bounded(s) && forall k :: 0 <= k < |samples| ==> samples[k] <= MS_MAX
    ensures var d := Delay.RecordAll(s, samples); Delay.Sound(d) && Bounded(d)
    ensures Delay.Accepted(s, samples) == samples
  {
    if samples != [] {
      var rest, last := samples[..|samples| - 1], samples[|samples| - 1];
      NothingRefused(s, rest);
      var d := Delay.RecordAll(s, rest);
      Delay.AcceptFailsIff(d, last);
      if d.count > 0 {
        Delay.SoundAverage(d);
      }
      Delay.AcceptKeepsSound(d, last);
      hide Delay.Sound, Delay.Weight, Delay.History, Delay.Mean;
      assert samples == rest + [last];
    }
  }

  lemma {:induction false} SamplesSmall(commits: seq<Commit>)
    requires forall k :: 0 <= k < |commits| ==> SampleOk(commits[k].outcome)
    ensures |Samples(commits)| <= |commits| && forall k :: 0 <= k < |Samples(commits)| ==> Samples(commits)[k] <= MS_MAX
  {
    if commits != [] {
      SamplesSmall(commits[..|commits| - 1]);
      assert SampleOk(commits[|commits| - 1].outcome);
    }
  }

  // Every delay of a committed success is recorded, in order and nothing else, and the time
  // shown is that of the last commit.
  lemma DelaysAreRecorded(cfg: Config, start: World, steps: seq<Step>)
    requires cfg.Valid() && Start(cfg, start)
    ensures var w := Execute(cfg, start, steps);
      && w.rec.health.delay == Delay.RecordAll(start.rec.health.delay, Samples(w.commits))
      && w.rec.health.accessTime == (if w.commits == [] then start.rec.health.accessTime else w.commits[|w.commits| - 1].at)
  {
    RunFaithful(cfg, start, steps);
    hide Inv, Execute;
  }

  // The measured delays of one clock are too small to be refused: from statistics within
  // the clock's range no commit of any run loses its sample, and the range is kept for the
  // next reload. Refusals need statistics no run produces.
  lemma NoSampleRefused(cfg: Config, start: World, steps: seq<Step>)
    requires cfg.Valid() && Start(cfg, start) && Delay.Sound(start.rec.health.delay) && Bounded(start.rec.health.delay)
    ensures var w := Execute(cfg, start, steps);
      && Delay.Accepted(start.rec.health.delay, Samples(w.commits)) == Samples(w.commits)
      && w.rec.health.delay == Delay.RecordAll(start.rec.health.delay, Samples(w.commits))
      && Delay.Sound(w.rec.health.delay) && Bounded(w.rec.health.delay)
  {
    RunFaithful(cfg, start, steps);
    var w := Execute(cfg, start, steps);
    forall k | 0 <= k < |w.commits| ensures SampleOk(w.commits[k].outcome) {
      assert CommitOk(w, k);
    }
    SamplesSmall(w.commits);
    NothingRefused(start.rec.health.delay, Samples(w.commits));
    hide Inv, Execute;
  }

  // The least, the greatest and the last of the samples, and while their sum fits 64 bits
  // their floored mean.
  ghost predicate DelaysShow(d: Delay.Stats, samples: seq<U64>) {
    && (d.count > 0 <==> samples != [])
    && (samples != [] ==>
          && Delay.IsMin(d.min, samples) && Delay.IsMax(d.max, samples) && d.last == samples[|samples| - 1]
          && d.min <= d.avg <= d.max)
    && (samples != [] && Delay.Sum(samples) <= U64_MAX && |samples| <= U64_MAX ==>
          d.count == |samples| && d.avg == Delay.Sum(samples) / |samples|)
  }

  lemma RecordedShows(samples: seq<U64>)
    requires Delay.Accepted(Delay.EMPTY, samples) == samples
    ensures DelaysShow(Delay.RecordAll(Delay.EMPTY, samples), samples)
  {
    hide Delay.RecordAll, Delay.Accepted, Delay.Sum;
    Delay.AllSamplesBounded(samples);
    if Delay.Sum(samples) <= U64_MAX && |samples| <= U64_MAX {
      Delay.ExactWhileFitting(samples);
    }
  }

  // A peer that starts without statistics shows exactly that, at every moment, of all the
  // delays its committed rounds measured.
  lemma PublishedDelaysAreExact(cfg: Config, start: World, steps: seq<Step>)
    requires cfg.Valid() && Start(cfg, start) && start.rec.health.delay == Delay.EMPTY
    ensures var w := Execute(cfg, start, steps); DelaysShow(w.rec.health.delay, Samples(w.commits))
  {
    hide DelaysShow, Execute, Samples;
    NoSampleRefused(cfg, start, steps);
    RecordedShows(Samples(Execute(cfg, start, steps).commits));
  }

  // ---- Finished rounds ----

  // In any state of any run, a process that finishes its active round in authority, with the
  // locks to be had and a clock, commits its verdict, and with it the delay since the start
  // of the round for the first check on a TCP connection, none in any other case.
  lemma FinishCommits(cfg: Config, start: World, steps: seq<Step>, pid: Pid, result: bool, first: bool, measured: Option<U64>, now: U64)
    requires cfg.Valid() && Start(cfg, start)
    requires var w := Execute(cfg, start, steps);
      && Alive(w, pid) && w.processes[pid].worker < |w.registrations| && InCharge(w, pid)
      && w.processes[pid].probe.value.active && !w.processes[pid].stopping && Reads(w, w.processes[pid], now)
      && (measured.Some? ==> w.processes[pid].probe.value.started <= measured.value <= w.clock)
    ensures var w := Execute(cfg, start, steps);
      var p, own := w.processes[pid], w.processes[pid].probe.value;
      var outcome := if !result then Failure
                     else Success(if cfg.tcp && first && measured.Some? then Some(measured.value - own.started) else None);
      var v := Execute(cfg, w, [Fix(pid, outcome), Operate(pid, Op.Submit(Some(now), false), Uncontended)]);
      && v.commits == w.commits + [Commit(Identity(pid, p.worker, own.instance, own.term, own.round), outcome, now)]
      && v.rec.phase == Waiting && IdentityOf(v.rec) == IdentityOf(w.rec) && v.claims == w.claims
  {
    RunFaithful(cfg, start, steps);
    hide Faithful, Execute, Start, InCharge;
    var w := Execute(cfg, start, steps);
    var own := w.processes[pid].probe.value;
    var outcome := if !result then Failure
                   else Success(if cfg.tcp && first && measured.Some? then Some(measured.value - own.started) else None);
    FinishFrom(cfg, start.rec, w, pid, outcome, now);
  }

  lemma FinishFrom(cfg: Config, initial: Record, w: World, pid: Pid, outcome: Outcome, now: U64)
    requires cfg.Valid() && Faithful(cfg, initial, w) && Alive(w, pid) && w.processes[pid].worker < |w.registrations| && InCharge(w, pid)
    requires w.processes[pid].probe.value.active && !w.processes[pid].stopping && Reads(w, w.processes[pid], now)
    requires outcome.Success? && outcome.sample.Some? ==> cfg.tcp && w.processes[pid].probe.value.started + outcome.sample.value <= w.clock
    ensures var p, own := w.processes[pid], w.processes[pid].probe.value;
      var v := Execute(cfg, w, [Fix(pid, outcome), Operate(pid, Op.Submit(Some(now), false), Uncontended)]);
      && v.commits == w.commits + [Commit(Identity(pid, p.worker, own.instance, own.term, own.round), outcome, now)]
      && v.rec.phase == Waiting && IdentityOf(v.rec) == IdentityOf(w.rec) && v.claims == w.claims
  {
    Known(cfg, initial, w, pid);
    OwnedRoundRuns(cfg, initial, w, pid);
    hide Faithful, ProbeOk;
    var fix, submit := Fix(pid, outcome), Operate(pid, Op.Submit(Some(now), false), Uncontended);
    var u := Exec(cfg, w, fix);
    SubmitDoes(cfg, u, pid, Some(now), false);
    assert [fix, submit][..1] == [fix] && [fix][..0] == [];
    assert Execute(cfg, w, [fix]) == u;
    hide Exec;
  }
}
