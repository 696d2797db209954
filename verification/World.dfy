// The protocol as a state machine: any number of worker processes, one peer record, and a
// history of registrations, claims and commits.

module World {
  import opened Time
  import opened HealthCounter
  import opened Protocol
  import Watch

  datatype Identity = Identity(pid: Pid, worker: U64, instance: U64, term: U64, round: U64)

  datatype Claim = Claim(id: Identity, start: U64, takeover: bool)

  datatype Commit = Commit(id: Identity, outcome: Outcome, at: U64)

  // issued[w] lists the processes that registered as worker w, in order: the registration
  // number i of worker w was handed to issued[w][i - 1].
  datatype World = World(
    clock: U64, activatedAt: Option<U64>, registrations: seq<Registration>, rec: Record,
    processes: map<Pid, Process>, alive: set<Pid>,
    claims: seq<Claim>, commits: seq<Commit>, issued: seq<seq<Pid>>)

  datatype Step =
    | Tick(to: U64)
    | Spawn(pid: Pid, worker: U64)
    | Crash(pid: Pid)
    | Activate(pid: Pid, now: U64)
    | StartTimer(pid: Pid, delay: U64)
    | Prepare(pid: Pid, clock: Option<U64>)
    | Fix(pid: Pid, outcome: Outcome)
    | Quit(pid: Pid)
    | Operate(pid: Pid, op: Op, contention: Contention)

  // A record as zone initialization leaves it.
  predicate InitialRecord(cfg: Config, rec: Record) {
    && rec.owner == NO_PID && rec.worker < cfg.workers && rec.phase == Initial
    && rec.instance == 0 && rec.term == 0 && rec.round == 0 && rec.deadline == 0
  }

  predicate Start(cfg: Config, w: World) {
    && w.clock <= MS_MAX && w.activatedAt == None
    && w.registrations == seq(cfg.workers, _ => Registration(NO_PID, 0, 0, false))
    && InitialRecord(cfg, w.rec)
    && w.processes == map[] && w.alive == {}
    && w.claims == [] && w.commits == [] && w.issued == seq(cfg.workers, _ => [])
  }

  predicate Alive(w: World, pid: Pid) { pid in w.alive && pid in w.processes }

  // A reading is never older than the process's previous one and never in the future.
  predicate Reads(w: World, p: Process, reading: U64) { p.seen <= reading <= w.clock }

  predicate ReadsClock(w: World, p: Process, reading: Option<U64>) {
    reading.Some? ==> Reads(w, p, reading.value)
  }

  // A takeover is only tried when the watchdog chose to: the record it observed is overdue,
  // and this worker is preferred or has waited for the preferred one long enough. The
  // registrations a scan reads one by one are an arbitrary view.
  predicate Chosen(cfg: Config, w: World, p: Process, op: Op)
    requires op.Takeover? && p.observed.Some?
  {
    && w.activatedAt.Some? && |op.choice.view| == cfg.workers && Reads(w, p, op.choice.now)
    && (op.clock.Some? ==> op.choice.now <= op.clock.value)
    && Watch.Gate(cfg, Activation(w), p.observed.value, p.worker, op.choice)
  }

  predicate Enabled(cfg: Config, w: World, s: Step) {
    match s
    case Tick(to) => w.clock <= to <= MS_MAX
    case Spawn(pid, worker) => pid != NO_PID && pid !in w.processes && worker < cfg.workers
    case Crash(pid) => Alive(w, pid)
    case Activate(pid, now) => Alive(w, pid) && w.activatedAt.None? && Reads(w, w.processes[pid], now)
    case StartTimer(pid, _) => Alive(w, pid) && w.processes[pid].registered && !w.processes[pid].stopping
    case Prepare(pid, clock) =>
      && Alive(w, pid) && ReadsClock(w, w.processes[pid], clock)
      && var p := w.processes[pid];
      p.probe.Some? && p.probe.value.active && !p.probe.value.prepared
    case Fix(pid, outcome) =>
      && Alive(w, pid)
      && var p := w.processes[pid];
      && p.probe.Some? && p.probe.value.active && !p.probe.value.pending
      && (outcome.Success? && outcome.sample.Some? ==> cfg.tcp && p.probe.value.started + outcome.sample.value <= w.clock)
    case Quit(pid) => Alive(w, pid)
    case Operate(pid, op, _) =>
      && Alive(w, pid) && Ready(op, w.processes[pid])
      && ReadsClock(w, w.processes[pid], Reading(op))
      && (op.Register? ==> w.activatedAt.Some?)
      && (op.Takeover? ==> Chosen(cfg, w, w.processes[pid], op))
      && w.processes[pid].worker < |w.registrations| && w.processes[pid].worker < |w.issued|
  }

  function Activation(w: World): U64 {
    if w.activatedAt.Some? then w.activatedAt.value else 0
  }

  function Put(w: World, p: Process): World { w.(processes := w.processes[p.pid := p]) }

  function Seen(p: Process, reading: Option<U64>): Process {
    if reading.Some? then p.(seen := reading.value) else p
  }

  function PreparedProbe(cfg: Config, probe: Probe, clock: Option<U64>): Probe {
    probe.(prepared := true,
           deadline := if clock.Some? && cfg.tcp then AddTime(clock.value, cfg.timeout) else probe.deadline)
  }

  function IdentityOf(rec: Record): Identity {
    Identity(rec.owner, rec.worker, rec.instance, rec.term, rec.round)
  }

  function ProbeIdentity(p: Process, probe: Probe): Identity {
    Identity(p.pid, p.worker, probe.instance, probe.term, probe.round)
  }

  // The effect of an operation, or of giving it up for want of a lock.
  function EffectOf(cfg: Config, w: World, pid: Pid, op: Op, contention: Contention): Effect
    requires Enabled(cfg, w, Operate(pid, op, contention))
  {
    var p := w.processes[pid];
    Perform(cfg, op, p, contention, Activation(w), w.registrations[p.worker], w.rec)
  }

  function PublishWorker(w: World, p: Process, first: bool, registration: Registration): World
    requires p.worker < |w.registrations| && p.worker < |w.issued|
  {
    w.(registrations := w.registrations[p.worker := registration],
       issued := if first then w.issued[p.worker := w.issued[p.worker] + [p.pid]] else w.issued)
  }

  // The history entries name the acting process and its own context, not the record.
  function PublishPeer(w: World, p: Process, op: Op, rec: Record): World {
    match op
    case Submit(clock, _) =>
      var probe := Allocated(p).probe.value;
      var at := if clock.Some? then clock.value else 0;
      w.(rec := rec, commits := w.commits + [Commit(ProbeIdentity(p, probe), probe.outcome, at)])
    case Begin(_, _) => w.(rec := rec, claims := w.claims + [ClaimBy(p, rec, false)])
    case Takeover(_, _, _) => w.(rec := rec, claims := w.claims + [ClaimBy(p, rec, true)])
    case _ => w.(rec := rec)
  }

  function ClaimBy(p: Process, rec: Record, takeover: bool): Claim {
    Claim(Identity(p.pid, p.worker, p.instance, rec.term, rec.round), rec.started, takeover)
  }

  function Land(w: World, p: Process, op: Op, effect: Effect): World
    requires p.worker < |w.registrations| && p.worker < |w.issued|
  {
    var v := match effect.publication
             case Nothing => w
             case ToWorker(registration) => PublishWorker(w, p, op.Register? && !p.registered, registration)
             case ToPeer(rec) => PublishPeer(w, p, op, rec);
    Put(v, Seen(effect.process, Reading(op)))
  }

  function Exec(cfg: Config, w: World, s: Step): World {
    if !Enabled(cfg, w, s) then w
    else match s
      case Tick(to) => w.(clock := to)
      case Spawn(pid, worker) => Put(w, NewProcess(pid, worker, w.clock)).(alive := w.alive + {pid})
      case Crash(pid) => w.(alive := w.alive - {pid})
      case Activate(pid, now) => Put(w, w.processes[pid].(seen := now)).(activatedAt := Some(now))
      case StartTimer(pid, delay) => Put(w, w.processes[pid].(timer := Armed(delay)))
      case Prepare(pid, clock) =>
        var p := w.processes[pid];
        Put(w, Seen(WithProbe(p, PreparedProbe(cfg, p.probe.value, clock)), clock))
      case Fix(pid, outcome) =>
        var p := w.processes[pid];
        Put(w, WithProbe(p, p.probe.value.(active := false, pending := true, outcome := outcome)))
      case Quit(pid) => Put(w, Stopped(w.processes[pid]))
      case Operate(pid, op, contention) => Land(w, w.processes[pid], op, EffectOf(cfg, w, pid, op, contention))
  }

  function Execute(cfg: Config, w: World, steps: seq<Step>): World {
    if steps == [] then w
    else Exec(cfg, Execute(cfg, w, steps[..|steps| - 1]), steps[|steps| - 1])
  }
}
