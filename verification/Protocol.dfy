// What each critical section of runtime/ngx_healthcheck_schedule.c decides, as functions of
// the process, its registration and the peer record read under the locks.

module Protocol {
  import opened Time
  import opened HealthCounter

  // Process 0 stands for "no process": the value of a free lock word and of a record no
  // process owns.
  type Pid = U64
  const NO_PID: Pid := 0

  const CLAIM_RETRY_MS: U64 := 10
  const BUSY_RETRY_MS: U64 := 100
  const TIMER_MAX: U64 := U64_MAX / 2

  datatype Phase = Initial | Waiting | Preparing | Inflight

  datatype Record = Record(
    health: Health, started: U64, owner: Pid, worker: U64, instance: U64,
    term: U64, round: U64, deadline: U64, phase: Phase)

  datatype Registration = Registration(pid: Pid, instance: U64, heartbeat: U64, exiting: bool)

  // score: the rank of each worker as a successor for this peer, an arbitrary fixed hash.
  datatype Config = Config(
    workers: U64, thresholds: Thresholds, interval: U64, timeout: U64, grace: U64, preference: U64,
    score: nat -> nat, tcp: bool)
  {
    predicate Valid() {
      0 < workers && thresholds.Valid() && 0 < timeout < interval
    }
  }

  // The process-local context of one check round. A context that was never used is all zero.
  datatype Probe = Probe(
    instance: U64, term: U64, round: U64, started: U64, deadline: U64, outcome: Outcome,
    active: bool, pending: bool, prepared: bool, announced: bool)

  const ZERO_PROBE: Probe := Probe(0, 0, 0, 0, 0, Failure, false, false, false, false)

  // timer: the peer's check timer, armed with a delay or not at all. observed: the record
  // the watchdog read and may now try to take over. seen: the last clock reading.
  datatype Process = Process(
    pid: Pid, worker: U64, instance: U64, registered: bool, stopping: bool, cleaned: bool,
    probe: Option<Probe>, timer: Option<U64>, observed: Option<Record>, seen: U64)

  function NewProcess(pid: Pid, worker: U64, now: U64): Process {
    Process(pid, worker, 0, false, false, false, None, None, None, now)
  }

  function Armed(delay: U64): Option<U64> { Some(Min(delay, TIMER_MAX)) }

  // What the watchdog goes by when it decides to take a peer over: a clock reading and the
  // registrations it could read, None where a lock was not had in time.
  datatype Choice = Choice(now: U64, view: seq<Option<Registration>>)

  // ---- Operations on the shared state ----

  // clock: the reading taken by the operation, None when the clock fails. memory: whether
  // the round context can be allocated.
  datatype Op =
    | Register(now: U64)
    | Exit
    | Validate
    | Announce
    | Submit(clock: Option<U64>, quit: bool)
    | Begin(clock: Option<U64>, memory: bool)
    | Takeover(clock: Option<U64>, memory: bool, choice: Choice)
    | Observe(delay: U64)

  predicate UsesWorkerLock(op: Op) { !op.Observe? }

  predicate UsesPeerLock(op: Op) { !op.Register? && !op.Exit? }

  function Reading(op: Op): Option<U64> {
    match op
    case Register(now) => Some(now)
    case Submit(clock, _) => clock
    case Begin(clock, _) => clock
    case Takeover(clock, _, _) => clock
    case _ => None
  }

  // When an event handler performs the operation at all.
  predicate Ready(op: Op, p: Process) {
    match op
    case Register(_) => !p.stopping
    case Exit => p.stopping && p.registered && !p.cleaned
    case Validate => p.probe.Some? && p.probe.value.active
    case Announce => p.probe.Some? && p.probe.value.active && p.probe.value.prepared
    case Submit(_, _) => p.probe.Some? && p.probe.value.pending
    case Begin(_, _) => p.timer.Some?
    case Takeover(_, _, _) => p.observed.Some?
    case Observe(_) => p.registered && !p.stopping
  }

  // ---- Local reactions ----

  function WithProbe(p: Process, probe: Probe): Process { p.(probe := Some(probe)) }

  // Releases all local resources of a process that stops (runtime_stop, before its lock).
  function Stopped(p: Process): Process {
    p.(stopping := true, timer := None, observed := None, probe := match p.probe
       case None => None
       case Some(probe) => Some(probe.(active := false, pending := false)))
  }

  // What the caller of an operation does when ownership turned out to be lost.
  function Declined(op: Op, p: Process): Process
    requires Ready(op, p)
  {
    match op
    case Validate => WithProbe(p, p.probe.value.(active := false))
    case Submit(_, _) => WithProbe(p, p.probe.value.(pending := false))
    case Begin(_, _) => p.(timer := None)
    case Register(_) => Stopped(p)
    case _ => p
  }

  function Allocated(p: Process): Process {
    if p.probe.None? then WithProbe(p, ZERO_PROBE) else p
  }

  predicate Busy(p: Process) { p.probe.Some? && (p.probe.value.active || p.probe.value.pending) }

  // The early returns before any lock is taken; None when the locks are needed.
  function Enter(cfg: Config, op: Op, p: Process): Option<Process>
    requires Ready(op, p)
  {
    match op
    case Validate => if p.stopping then Some(Declined(op, p)) else None
    case Submit(_, _) => if p.stopping then Some(Declined(op, p)) else None
    case Announce => if p.stopping || p.probe.value.announced then Some(p) else None
    case Begin(clock, memory) =>
      if p.stopping then Some(p.(timer := None))
      else if Busy(p) then Some(p.(timer := Armed(BUSY_RETRY_MS)))
      else if !p.registered then Some(p.(timer := None))
      else if p.probe.None? && !memory then Some(p.(timer := Armed(cfg.interval)))
      else if clock.None? then Some(Allocated(p).(timer := Armed(CLAIM_RETRY_MS)))
      else None
    case Takeover(clock, memory, _) =>
      if p.stopping || !p.registered || (p.probe.None? && !memory) then Some(p.(observed := None))
      else if Busy(p) || clock.None? then Some(Allocated(p).(observed := None))
      else None
    case _ => None
  }

  // The local outcome when a lock could not be had within its budget.
  function Contended(op: Op, p: Process): Process
    requires Ready(op, p)
  {
    match op
    case Begin(_, _) => Allocated(p).(timer := Armed(CLAIM_RETRY_MS))
    case Takeover(_, _, _) => Allocated(p).(observed := None)
    case Exit => p.(cleaned := true)
    case Observe(_) => p.(observed := None)
    case _ => p
  }

  // ---- Decisions under the locks ----

  datatype Publication = Nothing | ToWorker(registration: Registration) | ToPeer(record: Record)

  datatype Effect = Effect(process: Process, publication: Publication)

  predicate Current(registration: Registration, pid: Pid, instance: U64) {
    registration.instance == instance && !registration.exiting && registration.pid == pid
  }

  predicate Names(rec: Record, worker: U64, instance: U64) {
    rec.worker == worker && rec.instance == instance
  }

  // The full identity comparison made with both locks held (owned_lock).
  predicate Owns(p: Process, probe: Probe, registration: Registration, rec: Record) {
    && Current(registration, p.pid, probe.instance)
    && Names(rec, p.worker, probe.instance)
    && rec.term == probe.term && rec.round == probe.round && rec.owner == p.pid
  }

  function Deadline(cfg: Config, activatedAt: U64, rec: Record): U64 {
    if rec.phase != Initial then rec.deadline
    else AddTime(activatedAt, AddTime(Max(cfg.interval, 1000), Max(cfg.interval / 2, 1)))
  }

  function RegisterEffect(p: Process, now: U64, registration: Registration): Effect
    requires !p.stopping
  {
    if !p.registered then
      if registration.instance == U64_MAX then Effect(p, Nothing)
      else
        var next := Registration(p.pid, registration.instance + 1, now, false);
        Effect(p.(registered := true, instance := next.instance), ToWorker(next))
    else if !Current(registration, p.pid, p.instance) then Effect(Stopped(p), Nothing)
    else Effect(p, ToWorker(registration.(heartbeat := now)))
  }

  function ExitEffect(p: Process, registration: Registration): Effect {
    Effect(p.(cleaned := true),
           if registration.pid == p.pid && registration.instance == p.instance
           then ToWorker(registration.(exiting := true)) else Nothing)
  }

  function AnnounceEffect(p: Process, registration: Registration, rec: Record): Effect
    requires Ready(Announce, p)
  {
    var probe := p.probe.value;
    if !Owns(p, probe, registration, rec) then Effect(p, Nothing)
    else Effect(WithProbe(p, probe.(announced := true)),
                if rec.phase == Preparing
                then ToPeer(rec.(phase := Inflight, deadline := probe.deadline)) else Nothing)
  }

  // The record after a round's result is committed.
  function Committed(cfg: Config, rec: Record, outcome: Outcome, now: U64): Record {
    rec.(health := Apply(cfg.thresholds, rec.health, outcome, now),
         phase := Waiting,
         deadline := Max(AddTime(rec.started, cfg.interval), now))
  }

  function SubmitEffect(cfg: Config, p: Process, clock: Option<U64>, quit: bool,
                        registration: Registration, rec: Record): Effect
    requires Ready(Submit(clock, quit), p)
  {
    var probe := p.probe.value;
    if !Owns(p, probe, registration, rec) || (rec.phase != Preparing && rec.phase != Inflight) || quit then
      Effect(Declined(Submit(clock, quit), p), Nothing)
    else if clock.None? then Effect(p, Nothing)
    else
      var now := clock.value;
      var done := WithProbe(p, probe.(pending := false));
      // An overdue round starts the next one at once.
      Effect(if now >= AddTime(rec.started, cfg.interval) then done.(timer := Armed(0)) else done,
             ToPeer(Committed(cfg, rec, probe.outcome, now)))
  }

  predicate Exhausted(p: Process, rec: Record) {
    rec.round == U64_MAX || (!Names(rec, p.worker, p.instance) && rec.term == U64_MAX)
  }

  function ClaimedRecord(cfg: Config, p: Process, rec: Record, now: U64): Record
    requires !Exhausted(p, rec)
  {
    rec.(term := if Names(rec, p.worker, p.instance) then rec.term else rec.term + 1,
         worker := p.worker, owner := p.pid, instance := p.instance,
         round := rec.round + 1, started := now, phase := Preparing,
         deadline := AddTime(now, cfg.timeout))
  }

  function ClaimEffect(cfg: Config, p: Process, rec: Record, now: U64): Effect
    requires !Exhausted(p, rec)
  {
    var next := ClaimedRecord(cfg, p, rec, now);
    var probe := Probe(next.instance, next.term, next.round, now, next.deadline, Failure, true, false, false, false);
    Effect(WithProbe(p, probe).(timer := Armed(cfg.interval), observed := None), ToPeer(next))
  }

  // A regular claim: the previous round must be committed and its interval over.
  function BeginEffect(cfg: Config, p: Process, now: U64, registration: Registration, rec: Record): Effect {
    var q := Allocated(p);
    var due := AddTime(rec.started, cfg.interval);
    if !Current(registration, p.pid, p.instance) then Effect(q.(timer := None), Nothing)
    else if rec.worker != p.worker || (rec.instance != 0 && rec.instance != p.instance) then
      Effect(q.(timer := None), Nothing)
    else if rec.phase != Initial && rec.phase != Waiting then
      Effect(q.(timer := Armed(CLAIM_RETRY_MS)), Nothing)
    else if rec.started != 0 && now < due then
      Effect(q.(timer := Armed(due - now)), Nothing)
    else if Exhausted(p, rec) then Effect(q.(timer := Armed(cfg.interval)), Nothing)
    else ClaimEffect(cfg, q, rec, now)
  }

  // A takeover: nothing may have moved since the observation, the deadline plus grace must
  // be over, and the record must not already be this process's own.
  predicate MayTakeOver(cfg: Config, p: Process, now: U64, activatedAt: U64, registration: Registration, rec: Record)
    requires p.observed.Some?
  {
    var observed := p.observed.value;
    && Current(registration, p.pid, p.instance)
    && rec.term == observed.term && rec.round == observed.round
    && rec.phase == observed.phase && rec.deadline == observed.deadline
    && now >= AddTime(Deadline(cfg, activatedAt, rec), cfg.grace)
    && !Names(rec, p.worker, p.instance)
  }

  function TakeoverEffect(cfg: Config, p: Process, now: U64, activatedAt: U64,
                          registration: Registration, rec: Record): Effect
    requires p.observed.Some?
  {
    var q := Allocated(p);
    if !MayTakeOver(cfg, p, now, activatedAt, registration, rec) || Exhausted(p, rec) then
      Effect(q.(observed := None), Nothing)
    else ClaimEffect(cfg, q, rec, now)
  }

  // The watchdog's reaction to one record it read: arm an unclaimed initial shard, drop a
  // round that is no longer its own, remember a foreign record as a takeover candidate.
  function ObserveEffect(p: Process, delay: U64, rec: Record): Process {
    var q := if rec.phase == Initial && rec.instance == 0 && rec.worker == p.worker && p.timer.None?
             then p.(timer := Armed(delay)) else p;
    var r := match p.probe
             case None => q
             case Some(probe) =>
               if Names(rec, p.worker, probe.instance) && rec.term == probe.term && rec.round == probe.round then q
               else WithProbe(q, probe.(active := false, pending := false)).(timer := None);
    r.(observed := if Names(rec, p.worker, p.instance) then None else Some(rec))
  }

  function Critical(cfg: Config, op: Op, p: Process, activatedAt: U64, registration: Registration, rec: Record): Effect
    requires Ready(op, p) && Enter(cfg, op, p) == None
  {
    match op
    case Register(now) => RegisterEffect(p, now, registration)
    case Exit => ExitEffect(p, registration)
    case Validate =>
      Effect(if Owns(p, p.probe.value, registration, rec) then p else Declined(op, p), Nothing)
    case Announce => AnnounceEffect(p, registration, rec)
    case Submit(clock, quit) => SubmitEffect(cfg, p, clock, quit, registration, rec)
    case Begin(clock, _) => BeginEffect(cfg, p, clock.value, registration, rec)
    case Takeover(clock, _, _) => TakeoverEffect(cfg, p, clock.value, activatedAt, registration, rec)
    case Observe(delay) => Effect(ObserveEffect(p, delay, rec), Nothing)
  }

  // ---- Whole operations ----

  // Which lock, if any, could not be had within its budget.
  datatype Contention = Uncontended | WorkerBusy | PeerBusy

  // The registration is compared before the peer lock is even tried.
  predicate Refused(op: Op, p: Process, registration: Registration)
    requires Ready(op, p)
  {
    match op
    case Validate => !Current(registration, p.pid, p.probe.value.instance)
    case Announce => !Current(registration, p.pid, p.probe.value.instance)
    case Submit(_, _) => !Current(registration, p.pid, p.probe.value.instance)
    case Begin(_, _) => !Current(registration, p.pid, p.instance)
    case Takeover(_, _, _) => !Current(registration, p.pid, p.instance)
    case _ => false
  }

  // A refusal is final whatever the record says, and publishes nothing.
  lemma RefusalIgnoresRecord(cfg: Config, op: Op, p: Process, activatedAt: U64, registration: Registration, a: Record, b: Record)
    requires Ready(op, p) && Enter(cfg, op, p) == None && Refused(op, p, registration)
    ensures Critical(cfg, op, p, activatedAt, registration, a) == Critical(cfg, op, p, activatedAt, registration, b)
    ensures Critical(cfg, op, p, activatedAt, registration, a).publication == Nothing
  {
  }

  predicate Blocked(op: Op, p: Process, contention: Contention, registration: Registration)
    requires Ready(op, p)
  {
    match contention
    case Uncontended => false
    case WorkerBusy => UsesWorkerLock(op)
    case PeerBusy => UsesPeerLock(op) && !Refused(op, p, registration)
  }

  // Early return, lock contention, or the decision under the locks.
  function Perform(cfg: Config, op: Op, p: Process, contention: Contention, activatedAt: U64,
                   registration: Registration, rec: Record): Effect
    requires Ready(op, p)
  {
    if Enter(cfg, op, p).Some? then Effect(Enter(cfg, op, p).value, Nothing)
    else if Blocked(op, p, contention, registration) then Effect(Contended(op, p), Nothing)
    else Critical(cfg, op, p, activatedAt, registration, rec)
  }
}
