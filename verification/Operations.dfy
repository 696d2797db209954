// What each operation does to the world, field by field: the tables that the theorems about
// runs read instead of the decisions themselves.

module Operations {
  import opened Time
  import opened HealthCounter
  import opened Protocol
  import opened World
  import Delay

  // The step of a process that waits for no lock.
  function After(cfg: Config, w: World, pid: Pid, op: Op): World {
    Exec(cfg, w, Operate(pid, op, Uncontended))
  }

  predicate May(cfg: Config, w: World, pid: Pid, op: Op) {
    Enabled(cfg, w, Operate(pid, op, Uncontended)) && w.processes[pid].pid == pid
  }

  function Entry(w: World, pid: Pid): Registration
    requires pid in w.processes && w.processes[pid].worker < |w.registrations|
  {
    w.registrations[w.processes[pid].worker]
  }

  // The registry still shows this very registration, and it is not exiting.
  predicate Registered(entry: Registration, pid: Pid, instance: U64) {
    entry.pid == pid && entry.instance == instance && !entry.exiting
  }

  // The record and the registry show the identity of the process's own round.
  predicate InCharge(w: World, pid: Pid)
    requires pid in w.processes && w.processes[pid].worker < |w.registrations|
  {
    var p := w.processes[pid];
    p.probe.Some? &&
    var own := p.probe.value;
    && Registered(Entry(w, pid), pid, own.instance)
    && w.rec.owner == pid && w.rec.worker == p.worker && w.rec.instance == own.instance
    && w.rec.term == own.term && w.rec.round == own.round
  }

  // A process that let go of its timer, its round and what it observed.
  predicate Silent(p: Process) {
    && p.timer == None && p.observed == None
    && (p.probe.Some? ==> !p.probe.value.active && !p.probe.value.pending)
  }

  // What stopping leaves of a process.
  predicate Silenced(p: Process, q: Process) {
    && q.stopping && Silent(q)
    && q == p.(stopping := true, timer := q.timer, observed := q.observed, probe := q.probe)
    && (p.probe.None? <==> q.probe.None?)
    && (p.probe.Some? ==> q.probe.value == p.probe.value.(active := false, pending := false))
  }

  // Everything but the process is as it was.
  predicate OnlyProcess(w: World, v: World, pid: Pid) {
    pid in v.processes && v == w.(processes := w.processes[pid := v.processes[pid]])
  }

  predicate Publishes(w: World, v: World, pid: Pid, worker: U64, entry: Registration)
    requires worker < |w.registrations|
  {
    pid in v.processes
    && v == w.(registrations := w.registrations[worker := entry], issued := v.issued, processes := w.processes[pid := v.processes[pid]])
  }

  // ---- The registry ----

  lemma RegisterDoes(cfg: Config, w: World, pid: Pid, now: U64)
    requires May(cfg, w, pid, Register(now))
    ensures var v := After(cfg, w, pid, Register(now));
      var p, entry := w.processes[pid], Entry(w, pid);
      pid in v.processes &&
      var q := v.processes[pid];
      if !p.registered && entry.instance < U64_MAX then
        && Publishes(w, v, pid, p.worker, Registration(pid, entry.instance + 1, now, false))
        && v.issued == w.issued[p.worker := w.issued[p.worker] + [pid]]
        && q == p.(registered := true, instance := entry.instance + 1, seen := now)
      else if p.registered && Registered(entry, pid, p.instance) then
        && Publishes(w, v, pid, p.worker, Registration(pid, p.instance, now, false))
        && v.issued == w.issued && q == p.(seen := now)
      else
        && OnlyProcess(w, v, pid)
        && (if p.registered then Silenced(p.(seen := now), q) else q == p.(seen := now))
  {
    assert EffectOf(cfg, w, pid, Register(now), Uncontended) == RegisterEffect(w.processes[pid], now, Entry(w, pid));
  }

  lemma ExitDoes(cfg: Config, w: World, pid: Pid)
    requires May(cfg, w, pid, Exit)
    ensures var v := After(cfg, w, pid, Exit);
      var p, entry := w.processes[pid], Entry(w, pid);
      && pid in v.processes && v.processes[pid] == p.(cleaned := true)
      && if entry.pid == pid && entry.instance == p.instance
         then Publishes(w, v, pid, p.worker, Registration(pid, p.instance, entry.heartbeat, true)) && v.issued == w.issued
         else OnlyProcess(w, v, pid)
  {
    assert EffectOf(cfg, w, pid, Exit, Uncontended) == ExitEffect(w.processes[pid], Entry(w, pid));
  }

  // ---- The process's own round ----

  lemma ValidateDoes(cfg: Config, w: World, pid: Pid)
    requires May(cfg, w, pid, Validate)
    ensures var v := After(cfg, w, pid, Validate);
      var p := w.processes[pid];
      && OnlyProcess(w, v, pid)
      && v.processes[pid] == p.(probe := Some(p.probe.value.(active := !p.stopping && InCharge(w, pid))))
  {
  }

  lemma AnnounceDoes(cfg: Config, w: World, pid: Pid)
    requires May(cfg, w, pid, Announce)
    ensures var v := After(cfg, w, pid, Announce);
      var p := w.processes[pid];
      var own := p.probe.value;
      if p.stopping || own.announced || !InCharge(w, pid) then v == w
      else
        && v.processes == w.processes[pid := p.(probe := Some(own.(announced := true)))]
        && v == w.(processes := v.processes, rec := v.rec)
        && v.rec == if w.rec.phase == Preparing then w.rec.(phase := Inflight, deadline := own.deadline) else w.rec
  {
  }

  // A committed result: the record waits for the next round, which is due an interval after
  // the start of this one, or at once when that is over.
  predicate Commits(cfg: Config, w: World, v: World, pid: Pid, now: U64)
    requires pid in w.processes && w.processes[pid].probe.Some?
  {
    var p := w.processes[pid];
    var own := p.probe.value;
    var due := Min(w.rec.started + cfg.interval, U64_MAX);
    && pid in v.processes
    && v == w.(processes := w.processes[pid := v.processes[pid]], rec := v.rec, commits := v.commits)
    && v.commits == w.commits + [Commit(Identity(pid, p.worker, own.instance, own.term, own.round), own.outcome, now)]
    && v.rec == w.rec.(health := v.rec.health, phase := Waiting, deadline := Max(due, now))
    && v.rec.health.accessTime == now
    && v.rec.health.delay == (if own.outcome.Success? && own.outcome.sample.Some?
                              then Delay.Record(w.rec.health.delay, own.outcome.sample.value) else w.rec.health.delay)
    && v.processes[pid] == p.(probe := Some(own.(pending := false)), seen := now,
                              timer := if now >= due then Some(0) else p.timer)
  }

  lemma SubmitDoes(cfg: Config, w: World, pid: Pid, clock: Option<U64>, quit: bool)
    requires May(cfg, w, pid, Submit(clock, quit))
    ensures var v := After(cfg, w, pid, Submit(clock, quit));
      var p := w.processes[pid];
      var own := p.probe.value;
      var refused := p.stopping || !InCharge(w, pid) || (w.rec.phase != Preparing && w.rec.phase != Inflight) || quit;
      if !refused && clock.Some? then Commits(cfg, w, v, pid, clock.value)
      else
        && OnlyProcess(w, v, pid)
        && v.processes[pid] == Seen(p.(probe := Some(own.(pending := !refused))), clock)
  {
    hide Delay.Record;
  }

  // ---- Claims ----

  // The context a claim works on, blank at first.
  function Blank(p: Process): Process {
    if p.probe.None? then p.(probe := Some(Probe(0, 0, 0, 0, 0, Failure, false, false, false, false))) else p
  }

  // The next round, owned by the process: its timeout runs from now, and the check timer is
  // set for the round after it.
  predicate Claims(cfg: Config, w: World, v: World, pid: Pid, now: U64, takeover: bool)
    requires pid in w.processes
  {
    var p := w.processes[pid];
    var own := w.rec.worker == p.worker && w.rec.instance == p.instance;
    && w.rec.round < U64_MAX && (own || w.rec.term < U64_MAX)
    && (var round: U64, term: U64, deadline: U64 :=
          w.rec.round + 1, if own then w.rec.term else w.rec.term + 1, Min(now + cfg.timeout, U64_MAX);
        && v.rec == Record(w.rec.health, now, pid, p.worker, p.instance, term, round, deadline, Preparing)
        && v.claims == w.claims + [Claim(Identity(pid, p.worker, p.instance, term, round), now, takeover)]
        && v.processes == w.processes[pid := p.(
             seen := now, observed := None, timer := Some(Min(cfg.interval, U64_MAX / 2)),
             probe := Some(Probe(p.instance, term, round, now, deadline, Failure, true, false, false, false)))])
    && v == w.(processes := v.processes, rec := v.rec, claims := v.claims)
  }

  predicate NumbersLeft(w: World, p: Process) {
    w.rec.round < U64_MAX && ((w.rec.worker == p.worker && w.rec.instance == p.instance) || w.rec.term < U64_MAX)
  }

  // Whether the check timer's handler gets as far as taking the locks.
  predicate Tries(p: Process, clock: Option<U64>, memory: bool) {
    && p.registered && !p.stopping && (p.probe.Some? || memory) && clock.Some?
    && (p.probe.Some? ==> !p.probe.value.active && !p.probe.value.pending)
  }

  // Whether the previous round is committed and its interval over.
  predicate Due(cfg: Config, rec: Record, now: U64) {
    (rec.phase == Initial || rec.phase == Waiting) && (rec.started == 0 || now >= Min(rec.started + cfg.interval, U64_MAX))
  }

  // The shard is the process's own, or nobody's yet.
  predicate OwnShard(rec: Record, p: Process) {
    rec.worker == p.worker && (rec.instance == 0 || rec.instance == p.instance)
  }

  // When the check timer of a process that did not claim fires next.
  function NextTry(cfg: Config, w: World, p: Process, entry: Registration, clock: Option<U64>, memory: bool): Option<U64> {
    if p.stopping then None
    else if p.probe.Some? && (p.probe.value.active || p.probe.value.pending) then Some(100)
    else if !p.registered then None
    else if p.probe.None? && !memory then Some(Min(cfg.interval, U64_MAX / 2))
    else if clock.None? then Some(10)
    else if !Registered(entry, p.pid, p.instance) || !OwnShard(w.rec, p) then None
    else if w.rec.phase == Preparing || w.rec.phase == Inflight then Some(10)
    else if !Due(cfg, w.rec, clock.value) then
      Some(Min(Min(w.rec.started + cfg.interval, U64_MAX) - clock.value, U64_MAX / 2))
    else Some(Min(cfg.interval, U64_MAX / 2))
  }

  // A process that tries to claim has a context, unless it stops, is unregistered, or has no
  // memory for one.
  function Idle(p: Process, memory: bool): Process {
    if p.registered && !p.stopping && memory then Blank(p) else p
  }

  predicate Begun(cfg: Config, w: World, v: World, pid: Pid, clock: Option<U64>, memory: bool)
    requires pid in w.processes && w.processes[pid].worker < |w.registrations|
  {
    var p, entry := w.processes[pid], Entry(w, pid);
    if && Tries(p, clock, memory) && Registered(entry, pid, p.instance)
       && OwnShard(w.rec, p) && Due(cfg, w.rec, clock.value) && NumbersLeft(w, p)
    then Claims(cfg, w, v, pid, clock.value, false)
    else
      && OnlyProcess(w, v, pid)
      && v.processes[pid] == Seen(Idle(p, memory).(timer := NextTry(cfg, w, p, entry, clock, memory)), clock)
  }

  lemma BeginReturns(cfg: Config, w: World, pid: Pid, clock: Option<U64>, memory: bool)
    requires May(cfg, w, pid, Begin(clock, memory)) && Enter(cfg, Begin(clock, memory), w.processes[pid]).Some?
    ensures Begun(cfg, w, After(cfg, w, pid, Begin(clock, memory)), pid, clock, memory)
  {
    hide Claims, Critical, Due, OwnShard;
  }

  lemma BeginRefused(cfg: Config, w: World, pid: Pid, clock: Option<U64>, memory: bool)
    requires May(cfg, w, pid, Begin(clock, memory)) && Enter(cfg, Begin(clock, memory), w.processes[pid]).None?
    requires BeginEffect(cfg, w.processes[pid], clock.value, Entry(w, pid), w.rec).publication.Nothing?
    ensures Begun(cfg, w, After(cfg, w, pid, Begin(clock, memory)), pid, clock, memory)
  {
    var p, op := w.processes[pid], Begin(clock, memory);
    assert EffectOf(cfg, w, pid, op, Uncontended) == BeginEffect(cfg, p, clock.value, Entry(w, pid), w.rec);
    hide EffectOf, Claims, ClaimedRecord;
  }

  lemma BeginClaims(cfg: Config, w: World, pid: Pid, clock: Option<U64>, memory: bool)
    requires May(cfg, w, pid, Begin(clock, memory)) && Enter(cfg, Begin(clock, memory), w.processes[pid]).None?
    requires !BeginEffect(cfg, w.processes[pid], clock.value, Entry(w, pid), w.rec).publication.Nothing?
    ensures Begun(cfg, w, After(cfg, w, pid, Begin(clock, memory)), pid, clock, memory)
  {
    var p, op := w.processes[pid], Begin(clock, memory);
    assert EffectOf(cfg, w, pid, op, Uncontended) == BeginEffect(cfg, p, clock.value, Entry(w, pid), w.rec);
    hide EffectOf, NextTry;
  }

  lemma BeginDoes(cfg: Config, w: World, pid: Pid, clock: Option<U64>, memory: bool)
    requires May(cfg, w, pid, Begin(clock, memory))
    ensures Begun(cfg, w, After(cfg, w, pid, Begin(clock, memory)), pid, clock, memory)
  {
    hide Begun, BeginEffect, After;
    if Enter(cfg, Begin(clock, memory), w.processes[pid]).Some? {
      BeginReturns(cfg, w, pid, clock, memory);
    } else if BeginEffect(cfg, w.processes[pid], clock.value, Entry(w, pid), w.rec).publication.Nothing? {
      BeginRefused(cfg, w, pid, clock, memory);
    } else {
      BeginClaims(cfg, w, pid, clock, memory);
    }
  }

  predicate TakenOver(cfg: Config, w: World, v: World, pid: Pid, clock: Option<U64>, memory: bool)
    requires pid in w.processes && w.processes[pid].worker < |w.registrations| && w.processes[pid].observed.Some?
  {
    var p, entry := w.processes[pid], Entry(w, pid);
    var observed := p.observed.value;
    if && Tries(p, clock, memory) && Registered(entry, pid, p.instance)
       && w.rec.term == observed.term && w.rec.round == observed.round
       && w.rec.phase == observed.phase && w.rec.deadline == observed.deadline
       && !(w.rec.worker == p.worker && w.rec.instance == p.instance) && NumbersLeft(w, p)
    then Claims(cfg, w, v, pid, clock.value, true)
    else
      && OnlyProcess(w, v, pid)
      && v.processes[pid] == Seen(Idle(p, memory).(observed := None), clock)
  }

  // What was overdue when it was observed and did not move since still is.
  lemma StillOverdue(cfg: Config, w: World, pid: Pid, clock: Option<U64>, memory: bool, choice: Choice)
    requires May(cfg, w, pid, Takeover(clock, memory, choice)) && clock.Some?
    requires w.rec.phase == w.processes[pid].observed.value.phase && w.rec.deadline == w.processes[pid].observed.value.deadline
    ensures clock.value >= AddTime(Deadline(cfg, Activation(w), w.rec), cfg.grace)
  {
  }

  lemma TakeoverLocked(cfg: Config, w: World, pid: Pid, clock: Option<U64>, memory: bool, choice: Choice)
    requires May(cfg, w, pid, Takeover(clock, memory, choice)) && Enter(cfg, Takeover(clock, memory, choice), w.processes[pid]).None?
    ensures TakenOver(cfg, w, After(cfg, w, pid, Takeover(clock, memory, choice)), pid, clock, memory)
  {
    var p, op := w.processes[pid], Takeover(clock, memory, choice);
    assert EffectOf(cfg, w, pid, op, Uncontended) == TakeoverEffect(cfg, p, clock.value, Activation(w), Entry(w, pid), w.rec);
    var observed := p.observed.value;
    if w.rec.phase == observed.phase && w.rec.deadline == observed.deadline {
      StillOverdue(cfg, w, pid, clock, memory, choice);
    }
    hide EffectOf, Chosen, Deadline, AddTime;
    if TakeoverEffect(cfg, p, clock.value, Activation(w), Entry(w, pid), w.rec).publication.Nothing? {
      hide Claims, ClaimedRecord;
    }
  }

  lemma TakeoverDoes(cfg: Config, w: World, pid: Pid, clock: Option<U64>, memory: bool, choice: Choice)
    requires May(cfg, w, pid, Takeover(clock, memory, choice))
    ensures TakenOver(cfg, w, After(cfg, w, pid, Takeover(clock, memory, choice)), pid, clock, memory)
  {
    if Enter(cfg, Takeover(clock, memory, choice), w.processes[pid]).None? {
      TakeoverLocked(cfg, w, pid, clock, memory, choice);
    } else {
      hide Claims, Critical;
    }
  }

  // ---- The watchdog's look ----

  // The record shows the round the process holds, or held last.
  predicate Shows(rec: Record, p: Process) {
    p.probe.Some? ==>
      && rec.worker == p.worker && rec.instance == p.probe.value.instance
      && rec.term == p.probe.value.term && rec.round == p.probe.value.round
  }

  lemma ObserveDoes(cfg: Config, w: World, pid: Pid, delay: U64)
    requires May(cfg, w, pid, Observe(delay))
    ensures var v := After(cfg, w, pid, Observe(delay));
      var p := w.processes[pid];
      && OnlyProcess(w, v, pid) &&
      var q := v.processes[pid];
      && q == p.(timer := q.timer, probe := q.probe, observed := q.observed)
      && q.observed == (if w.rec.worker == p.worker && w.rec.instance == p.instance then None else Some(w.rec))
      && (if Shows(w.rec, p) then q.probe == p.probe
          else q.probe == Some(p.probe.value.(active := false, pending := false)))
      && q.timer == (if !Shows(w.rec, p) then None
                     else if p.timer.None? && w.rec.phase == Initial && w.rec.instance == 0 && w.rec.worker == p.worker
                     then Some(Min(delay, U64_MAX / 2)) else p.timer)
  {
  }

  // ---- A lock that cannot be had ----

  // A busy registration lock stops everything but a look; a busy peer lock everything that
  // needs it and whose registration is still current.
  predicate Stuck(w: World, pid: Pid, op: Op, contention: Contention)
    requires pid in w.processes && w.processes[pid].worker < |w.registrations|
  {
    var p, entry := w.processes[pid], Entry(w, pid);
    match contention
    case Uncontended => false
    case WorkerBusy => !op.Observe?
    case PeerBusy =>
      match op
      case Register(_) => false
      case Exit => false
      case Observe(_) => true
      case Begin(_, _) => Registered(entry, pid, p.instance)
      case Takeover(_, _, _) => Registered(entry, pid, p.instance)
      case _ => p.probe.Some? && Registered(entry, pid, p.probe.value.instance)
  }

  // Nothing shared changes, and the process only notes that it has to try again.
  lemma StuckDoes(cfg: Config, w: World, pid: Pid, op: Op, contention: Contention)
    requires May(cfg, w, pid, op) && Enabled(cfg, w, Operate(pid, op, contention))
    requires Enter(cfg, op, w.processes[pid]).None?
    ensures var v := Exec(cfg, w, Operate(pid, op, contention));
      var p := w.processes[pid];
      if !Stuck(w, pid, op, contention) then v == After(cfg, w, pid, op)
      else
        && OnlyProcess(w, v, pid)
        && v.processes[pid] == Seen(
             match op
             case Begin(_, _) => Blank(p).(timer := Some(10))
             case Takeover(_, _, _) => Blank(p).(observed := None)
             case Observe(_) => p.(observed := None)
             case Exit => p.(cleaned := true)
             case _ => p,
             Reading(op))
  {
    hide Critical;
  }
}
