// The scheduler's operations as they run in one worker process, updating its own context,
// its registration and the peer record in place (runtime/ngx_healthcheck_schedule.c).

module Schedule {
  import opened Time
  import opened HealthCounter
  import opened Protocol
  import opened World
  import opened Slots
  import opened State
  import Delay
  import Operations
  import Watch

  datatype Status = Ok | Again | Declined | Error

  // What an operation meets: whether each lock can be had within its budget, the clock, and
  // whether memory is left.
  datatype Circumstances = Circumstances(
    workerFree: bool, peerFree: bool, clock: Option<U64>, memory: bool, quit: bool, activatedAt: U64,
    choice: Choice)
  {
    function Met(op: Op): Contention {
      if UsesWorkerLock(op) && !workerFree then WorkerBusy else if !peerFree then PeerBusy else Uncontended
    }
  }

  // Everything one process's operation can read or change.
  datatype Local = Local(process: Process, registration: Registration, rec: Record)

  function Next(cfg: Config, s: Local, op: Op, contention: Contention, activatedAt: U64): Local {
    if !Ready(op, s.process) then s
    else
      var e := Perform(cfg, op, s.process, contention, activatedAt, s.registration, s.rec);
      Local(e.process,
            if e.publication.ToWorker? then e.publication.registration else s.registration,
            if e.publication.ToPeer? then e.publication.record else s.rec)
  }

  // The operations below are the steps of the protocol.
  lemma NextIsStep(cfg: Config, w: World, pid: Pid, op: Op, contention: Contention)
    requires Enabled(cfg, w, Operate(pid, op, contention)) && w.processes[pid].pid == pid
    ensures var v := Exec(cfg, w, Operate(pid, op, contention));
      var p := w.processes[pid];
      var n := Next(cfg, Local(p, w.registrations[p.worker], w.rec), op, contention, Activation(w));
      && v.rec == n.rec && v.registrations == w.registrations[p.worker := n.registration]
      && (n.process.pid == pid ==> v.processes == w.processes[pid := Seen(n.process, Reading(op))])
      && v.clock == w.clock && v.activatedAt == w.activatedAt && v.alive == w.alive
  {
    hide Enter, Critical, Contended, Blocked;
  }

  // A result that can no longer be committed.
  function Dropped(s: Local): Local {
    match s.process.probe
    case None => s
    case Some(probe) => s.(process := WithProbe(s.process, probe.(pending := false)))
  }

  function Fixed(s: Local, outcome: Outcome): Local {
    match s.process.probe
    case None => s
    case Some(probe) =>
      if !probe.active || probe.pending then s
      else s.(process := WithProbe(s.process, probe.(active := false, pending := true, outcome := outcome)))
  }

  // One visit of the watchdog: three steps of the protocol, the last one only if chosen.
  function Visited(cfg: Config, s: Local, c: Circumstances, delay: U64): Local {
    var submit, observe := Op.Submit(c.clock, c.quit), Op.Observe(delay);
    var takeover := Op.Takeover(c.clock, c.memory, c.choice);
    var offered := Next(cfg, s, submit, c.Met(submit), c.activatedAt);
    var seen := Next(cfg, offered, observe, c.Met(observe), c.activatedAt);
    var p := seen.process;
    if p.observed.Some? && Watch.Gate(cfg, c.activatedAt, p.observed.value, p.worker, c.choice)
    then Next(cfg, seen, takeover, c.Met(takeover), c.activatedAt)
    else seen
  }

  function Reread(s: Local, seen: U64): Local { s.(process := s.process.(seen := seen)) }

  // No step of a visit depends on the last clock reading a process remembers.
  lemma SeenIsInvisible(cfg: Config, s: Local, op: Op, contention: Contention, activatedAt: U64, seen: U64)
    requires op.Submit? || op.Observe? || op.Takeover?
    ensures Next(cfg, Reread(s, seen), op, contention, activatedAt) == Reread(Next(cfg, s, op, contention, activatedAt), seen)
  {
    hide Critical;
    if Ready(op, s.process) && Enter(cfg, op, s.process).None? {
      DecisionIgnoresSeen(cfg, s, op, activatedAt, seen);
    }
  }

  lemma DecisionIgnoresSeen(cfg: Config, s: Local, op: Op, activatedAt: U64, seen: U64)
    requires (op.Submit? || op.Observe? || op.Takeover?) && Ready(op, s.process) && Enter(cfg, op, s.process).None?
    ensures Ready(op, Reread(s, seen).process) && Enter(cfg, op, Reread(s, seen).process).None?
    ensures var e := Critical(cfg, op, s.process, activatedAt, s.registration, s.rec);
      Critical(cfg, op, Reread(s, seen).process, activatedAt, s.registration, s.rec) == e.(process := e.process.(seen := seen))
  {
    hide Apply, Deadline, BeginEffect, RegisterEffect, ExitEffect, AnnounceEffect;
    match op {
      case Submit(_, _) => hide TakeoverEffect, ObserveEffect;
      case Observe(_) => hide TakeoverEffect, SubmitEffect;
      case Takeover(_, _, _) => hide ObserveEffect, SubmitEffect;
    }
  }

  // The world shows what the process acts on, up to the reading it remembers.
  predicate Mirrors(w: World, pid: Pid, s: Local) {
    && pid in w.processes && w.processes[pid].worker < |w.registrations| && w.processes[pid].worker < |w.issued|
    && s.process.pid == pid && Local(w.processes[pid], w.registrations[w.processes[pid].worker], w.rec) == Reread(s, w.processes[pid].seen)
  }

  lemma StepMirrors(cfg: Config, w: World, pid: Pid, s: Local, op: Op, contention: Contention)
    requires op.Submit? || op.Observe? || op.Takeover?
    requires Mirrors(w, pid, s) && (Ready(op, s.process) ==> Enabled(cfg, w, Operate(pid, op, contention)))
    ensures var v := Exec(cfg, w, Operate(pid, op, contention));
      && Mirrors(v, pid, Next(cfg, s, op, contention, Activation(w)))
      && v.processes.Keys == w.processes.Keys && v.clock == w.clock && v.activatedAt == w.activatedAt && v.alive == w.alive
      && (pid in v.processes ==> v.processes[pid].seen == w.processes[pid].seen || Some(v.processes[pid].seen) == Reading(op))
  {
    var seen := w.processes[pid].seen;
    SeenIsInvisible(cfg, s, op, contention, Activation(w), seen);
    if Ready(op, s.process) {
      NextIsStep(cfg, w, pid, op, contention);
      EffectNames(cfg, s, op, contention, Activation(w));
      hide Enabled, Next, Land, EffectOf;
    }
  }

  lemma EffectNames(cfg: Config, s: Local, op: Op, contention: Contention, activatedAt: U64)
    ensures var n := Next(cfg, s, op, contention, activatedAt);
      n.process.pid == s.process.pid && n.process.worker == s.process.worker
  {
    hide Apply, Exhausted, Deadline;
  }

  // A visit under one clock reading is a run of three steps of the state machine.
  lemma VisitIsRun(cfg: Config, w: World, pid: Pid, c: Circumstances, delay: U64)
    requires Alive(w, pid) && w.processes[pid].pid == pid && w.processes[pid].registered && !w.processes[pid].stopping
    requires w.processes[pid].worker < |w.registrations| && w.processes[pid].worker < |w.issued|
    requires w.activatedAt == Some(c.activatedAt) && |c.choice.view| == cfg.workers && Reads(w, w.processes[pid], c.choice.now)
    requires c.clock.Some? ==> c.clock.value == c.choice.now
    ensures var submit, observe := Op.Submit(c.clock, c.quit), Op.Observe(delay);
      var takeover := Op.Takeover(c.clock, c.memory, c.choice);
      var u := Exec(cfg, Exec(cfg, w, Operate(pid, submit, c.Met(submit))), Operate(pid, observe, c.Met(observe)));
      var s := Local(w.processes[pid], w.registrations[w.processes[pid].worker], w.rec);
      Mirrors(Exec(cfg, u, Operate(pid, takeover, c.Met(takeover))), pid, Visited(cfg, s, c, delay))
  {
    hide Next, Exec, Watch.Gate;
    var submit, observe := Op.Submit(c.clock, c.quit), Op.Observe(delay);
    var takeover := Op.Takeover(c.clock, c.memory, c.choice);
    var s := Local(w.processes[pid], w.registrations[w.processes[pid].worker], w.rec);
    StepMirrors(cfg, w, pid, s, submit, c.Met(submit));
    var w1, s1 := Exec(cfg, w, Operate(pid, submit, c.Met(submit))), Next(cfg, s, submit, c.Met(submit), c.activatedAt);
    StepMirrors(cfg, w1, pid, s1, observe, c.Met(observe));
    var w2, s2 := Exec(cfg, w1, Operate(pid, observe, c.Met(observe))), Next(cfg, s1, observe, c.Met(observe), c.activatedAt);
    var p := s2.process;
    if p.observed.Some? && Watch.Gate(cfg, c.activatedAt, p.observed.value, p.worker, c.choice) {
      StepMirrors(cfg, w2, pid, s2, takeover, c.Met(takeover));
    } else {
      Unchosen(cfg, w2, pid, takeover, c.Met(takeover));
    }
  }

  lemma Unchosen(cfg: Config, w: World, pid: Pid, op: Op, contention: Contention)
    requires pid in w.processes && op.Takeover?
    requires var p := w.processes[pid];
      p.observed.None? || !Watch.Gate(cfg, Activation(w), p.observed.value, p.worker, op.choice)
    ensures Exec(cfg, w, Operate(pid, op, contention)) == w
  {
    hide Land, EffectOf, Watch.Gate;
  }

  // How the check timer is set after an attempt to claim.
  function AfterClaim(cfg: Config, rc: Status, wait: U64): Option<U64> {
    match rc
    case Ok => Armed(cfg.interval)
    case Declined => None
    case Again => Armed(if wait != 0 then wait else CLAIM_RETRY_MS)
    case Error => Armed(cfg.interval)
  }

  // Fixing a result and offering it are two steps of the state machine.
  lemma FixIsStep(cfg: Config, w: World, pid: Pid, outcome: Outcome, clock: Option<U64>, quit: bool, contention: Contention)
    requires Enabled(cfg, w, Fix(pid, outcome)) && w.processes[pid].pid == pid && ReadsClock(w, w.processes[pid], clock)
    requires w.processes[pid].worker < |w.registrations| && w.processes[pid].worker < |w.issued|
    ensures var u := Exec(cfg, w, Fix(pid, outcome));
      var p, submit := w.processes[pid], Op.Submit(clock, quit);
      var s := Fixed(Local(p, w.registrations[p.worker], w.rec), outcome);
      && u == w.(processes := w.processes[pid := s.process])
      && Enabled(cfg, u, Operate(pid, submit, contention)) && s.process.pid == pid
      && s == Local(u.processes[pid], u.registrations[p.worker], u.rec)
  {
  }

  lemma SubmitKeepsOutcome(cfg: Config, s: Local, clock: Option<U64>, quit: bool, contention: Contention, activatedAt: U64)
    requires s.process.probe.Some?
    ensures var n := Next(cfg, s, Op.Submit(clock, quit), contention, activatedAt);
      n.process.probe.Some? && n.process.probe.value.outcome == s.process.probe.value.outcome
  {
    hide Owns, Apply;
  }

  // The context of one check round.
  class Context {
    var instance: U64
    var term: U64
    var round: U64
    var started: U64
    var deadline: U64
    var outcome: Outcome
    var active: bool
    var pending: bool
    var prepared: bool
    var announced: bool

    constructor ()
      ensures Value() == ZERO_PROBE
    {
      instance, term, round, started, deadline, outcome := 0, 0, 0, 0, 0, Failure;
      active, pending, prepared, announced := false, false, false, false;
    }

    function Value(): Probe
      reads this
    {
      Probe(instance, term, round, started, deadline, outcome, active, pending, prepared, announced)
    }
  }

  class Runtime {
    const cfg: Config
    const pid: Pid
    const worker: U64
    const registry: SharedCell
    const cell: SharedCell
    const seen: U64
    var instance: U64
    var registered: bool
    var stopping: bool
    var cleaned: bool
    var probe: Context?
    var timer: Option<U64>
    var observed: Option<Record>

    // A process that has not registered yet.
    constructor (cfg: Config, pid: Pid, worker: U64, now: U64, registry: SharedCell, cell: SharedCell)
      ensures this.cfg == cfg && this.registry == registry && this.cell == cell
      ensures View() == NewProcess(pid, worker, now)
    {
      this.cfg, this.pid, this.worker, this.seen := cfg, pid, worker, now;
      this.registry, this.cell := registry, cell;
      instance, registered, stopping, cleaned := 0, false, false, false;
      probe, timer, observed := null, None, None;
    }

    ghost predicate Valid()
      reads this, registry, cell, cell.slot0, cell.slot1
    {
      && pid != NO_PID && cfg.Valid()
      && registry != cell && registry.Valid() && cell.Valid()
      && registry.width == REGISTRATION_WORDS && cell.width == RECORD_WORDS
      && registry.slot0 != cell.slot0 && registry.slot0 != cell.slot1
      && registry.slot1 != cell.slot0 && registry.slot1 != cell.slot1
      && cell.Down() == Record().health.down
    }

    // The process as the protocol sees it.
    function View(): Process
      reads this, if probe == null then {} else {probe}
    {
      Process(pid, worker, instance, registered, stopping, cleaned,
              if probe == null then None else Some(probe.Value()), timer, observed, seen)
    }

    function Registration(): Registration
      reads registry`published, registry.slot0, registry.slot1
    {
      WordsRegistration(registry.Shown())
    }

    function Record(): Record
      reads cell`published, cell.slot0, cell.slot1
    {
      WordsRecord(cell.Shown())
    }

    function State(): Local
      reads this, registry`published, registry.slot0, registry.slot1, cell`published, cell.slot0, cell.slot1
      reads if probe == null then {} else {probe}
    {
      Local(View(), Registration(), Record())
    }

    // The protocol's step under the given circumstances.
    function After(s: Local, op: Op, c: Circumstances): Local { Next(cfg, s, op, c.Met(op), c.activatedAt) }

    predicate Locks(workerHolder: Pid, peerHolder: Pid)
      reads registry`holder, cell`holder
    {
      registry.holder == workerHolder && cell.holder == peerHolder
    }

    // The locks can be had exactly when the circumstances say so.
    predicate Meets(c: Circumstances)
      reads registry`holder, cell`holder
    {
      (c.workerFree <==> registry.holder == NO_PID) && (c.peerFree <==> cell.holder == NO_PID)
    }

    method PublishRecord(rec: Record)
      requires Valid()
      modifies cell`published, cell.slot0, cell.slot1
      ensures Valid() && Record() == rec && Registration() == old(Registration())
    {
      RecordRoundTrip(rec);
      cell.Publish(RecordWords(rec), rec.health.down);
    }

    method PublishRegistration(registration: Registration)
      requires Valid()
      modifies registry`published, registry.slot0, registry.slot1
      ensures Valid() && Registration() == registration && Record() == old(Record())
    {
      RegistrationRoundTrip(registration);
      registry.Publish(RegistrationWords(registration), false);
    }

    // register: a first registration takes the next instance number, a later one renews the
    // heartbeat, and a superseded one is declined, after which the watchdog stops.
    method Register(c: Circumstances, now: U64) returns (rc: Status)
      requires Valid() && Meets(c) && !stopping
      modifies this, registry, registry.slot0, registry.slot1, if probe == null then {} else {probe}
      ensures Valid() && Locks(old(registry.holder), old(cell.holder)) && probe == old(probe)
      ensures State() == After(old(State()), Op.Register(now), c)
      ensures rc.Declined? <==> stopping
    {
      hide Registration, Record, BeginEffect, TakeoverEffect, SubmitEffect, AnnounceEffect, ExitEffect, ObserveEffect, RegisterEffect;
      var ok := registry.TryLock(pid);
      if !ok {
        return Again;
      }
      rc := RegisterLocked(now);
      if rc.Declined? {
        Stop();
      }
    }

    // With the registration locked: publish the next one, if any, and release.
    method RegisterLocked(now: U64) returns (rc: Status)
      requires Valid() && registry.holder == pid && !stopping
      modifies this`instance, this`registered, registry, registry.slot0, registry.slot1
      ensures Valid() && Locks(NO_PID, old(cell.holder)) && Record() == old(Record()) && !rc.Again?
      ensures var e := RegisterEffect(old(View()), now, old(Registration()));
        && View() == (if rc.Declined? then old(View()) else e.process)
        && Registration() == (if e.publication.ToWorker? then e.publication.registration else old(Registration()))
        && !e.publication.ToPeer? && (rc.Declined? ==> e == Effect(Stopped(old(View())), Nothing))
    {
      hide Registration, Record, RegisterEffect;
      var next: Registration;
      rc, next := Renewed(Registration(), now);
      if rc.Ok? {
        PublishRegistration(next);
        instance := next.instance;
        registered := true;
      }
      registry.Unlock(pid);
    }

    // The registration to publish: the next instance number at first, then only heartbeats,
    // as long as nobody else has registered or this process was marked.
    method Renewed(state: Registration, now: U64) returns (rc: Status, next: Registration)
      requires !stopping
      ensures rc.Ok? || rc.Error? || rc.Declined?
      ensures rc.Ok? ==> next.heartbeat == now && next.pid == pid && !next.exiting
      ensures rc.Ok? ==> next.instance == if registered then instance else state.instance + 1
      ensures rc.Declined? <==> registered && !Operations.Registered(state, pid, instance)
      ensures rc.Error? <==> !registered && state.instance == U64_MAX
      ensures RegisterEffect(View(), now, state) ==
        if rc.Ok? then Effect(View().(registered := true, instance := next.instance), ToWorker(next))
        else if rc.Declined? then Effect(Stopped(View()), Nothing)
        else Effect(View(), Nothing)
    {
      next := state;
      if !registered {
        if next.instance == U64_MAX {
          return Error, next;
        }
        next := next.(instance := next.instance + 1, pid := pid, exiting := false);
      } else if next.instance != instance || next.pid != pid || next.exiting {
        return Status.Declined, next;
      }
      next := next.(heartbeat := now);
      return Ok, next;
    }

    // The local half of runtime_stop.
    method Stop()
      modifies this, if probe == null then {} else {probe}
      ensures View() == Stopped(old(View())) && probe == old(probe)
    {
      stopping := true;
      timer := None;
      observed := None;
      if probe != null {
        probe.active := false;
        probe.pending := false;
      }
    }

    // The shared half of runtime_stop: one attempt to mark the own registration.
    method Exit(c: Circumstances)
      requires Valid() && Meets(c) && stopping && registered && !cleaned
      modifies this`cleaned, registry, registry.slot0, registry.slot1
      ensures Valid() && Locks(old(registry.holder), old(cell.holder))
      ensures State() == After(old(State()), Op.Exit, c)
    {
      hide Registration, Record, BeginEffect, TakeoverEffect, SubmitEffect, AnnounceEffect, RegisterEffect;
      var ok := registry.TryLock(pid);
      if ok {
        var state := Registration();
        if state.pid == pid && state.instance == instance {
          PublishRegistration(state.(exiting := true));
        }
        registry.Unlock(pid);
      }
      cleaned := true;
    }

    // owned_lock: both locks are held exactly when the full identity still matches, and
    // none otherwise.
    method OwnedLock(c: Circumstances) returns (rc: Status, state: Record)
      requires Valid() && Meets(c) && probe != null
      modifies registry`holder, cell`holder
      ensures Valid() && State() == old(State())
      ensures rc.Ok? ==> !stopping && c.workerFree && c.peerFree && state == Record()
      ensures rc.Ok? ==> Owns(View(), probe.Value(), Registration(), Record()) && Locks(pid, pid)
      ensures !rc.Ok? ==> Locks(old(registry.holder), old(cell.holder))
      ensures rc.Again? ==> !stopping && (c.workerFree ==> Current(Registration(), pid, probe.instance) && !c.peerFree)
      ensures rc.Declined? ==> stopping || (c.workerFree && !Current(Registration(), pid, probe.instance)) || (c.workerFree && c.peerFree && !Owns(View(), probe.Value(), Registration(), Record()))
      ensures !rc.Error?
    {
      state := Record();
      if stopping {
        return Status.Declined, state;
      }
      var ok := registry.TryLock(pid);
      if !ok {
        return Again, state;
      }
      var registration := Registration();
      if registration.instance != probe.instance || registration.exiting || registration.pid != pid {
        registry.Unlock(pid);
        return Status.Declined, state;
      }
      ok := cell.TryLock(pid);
      if !ok {
        registry.Unlock(pid);
        return Again, state;
      }
      state := Record();
      if state.worker != worker || state.instance != probe.instance || state.term != probe.term
         || state.round != probe.round || state.owner != pid {
        cell.Unlock(pid);
        registry.Unlock(pid);
        return Status.Declined, state;
      }
      return Ok, state;
    }

    method OwnedUnlock()
      requires Locks(pid, pid) && cell != registry
      modifies cell`holder, registry`holder
      ensures Locks(NO_PID, NO_PID)
    {
      cell.Unlock(pid);
      registry.Unlock(pid);
    }

    // probe_valid with the reaction every caller has: a fenced round is abandoned.
    method Revalidate(c: Circumstances) returns (rc: Status)
      requires Valid() && Meets(c) && Ready(Validate, View())
      modifies registry`holder, cell`holder, probe
      ensures Valid() && Locks(old(registry.holder), old(cell.holder)) && probe == old(probe)
      ensures State() == After(old(State()), Validate, c)
    {
      hide Registration, Record, BeginEffect, TakeoverEffect, SubmitEffect, AnnounceEffect, RegisterEffect, ExitEffect;
      var state;
      rc, state := OwnedLock(c);
      if rc.Ok? {
        OwnedUnlock();
      } else if rc.Declined? {
        probe.active := false;
      }
    }

    // probe_waiting: the record shows the round in flight with its local deadline.
    method Waiting(c: Circumstances) returns (rc: Status)
      requires Valid() && Meets(c) && Ready(Announce, View())
      modifies registry`holder, cell, cell.slot0, cell.slot1, probe
      ensures Valid() && Locks(old(registry.holder), old(cell.holder)) && probe == old(probe)
      ensures State() == After(old(State()), Announce, c)
    {
      hide Registration, Record, BeginEffect, TakeoverEffect, SubmitEffect, RegisterEffect, ExitEffect;
      if probe.announced {
        return Ok;
      }
      var state;
      rc, state := OwnedLock(c);
      if !rc.Ok? {
        return;
      }
      if state.phase == Preparing {
        state := state.(phase := Inflight, deadline := probe.deadline);
        PublishRecord(state);
      }
      probe.announced := true;
      OwnedUnlock();
    }

    // The health update of a committed result, counter by counter. A delay the statistics
    // reject leaves them as they were; the verdict still counts.
    method Score(h: Health, outcome: Outcome, now: U64) returns (r: Health)
      ensures r == Apply(cfg.thresholds, h, outcome, now)
      ensures r.accessTime == now
      ensures r.delay == if outcome.Success? && outcome.sample.Some? then Delay.Record(h.delay, outcome.sample.value) else h.delay
    {
      r := h;
      match outcome {
        case Success(sample) =>
          r := r.(fallCount := 0);
          r := r.(riseCount := if r.riseCount < U64_MAX then r.riseCount + 1 else cfg.thresholds.rise);
          if r.riseCount >= cfg.thresholds.rise {
            r := r.(down := false);
          }
          if sample.Some? {
            var stats := new Delay.DelayStats(r.delay);
            var fits := stats.Update(sample.value);
            if fits {
              r := r.(delay := stats.Value());
            }
          }
        case Failure =>
          r := r.(riseCount := 0);
          r := r.(fallCount := if r.fallCount < U64_MAX then r.fallCount + 1 else cfg.thresholds.fall);
          if r.fallCount >= cfg.thresholds.fall {
            r := r.(down := true);
          }
      }
      r := r.(accessTime := now);
    }

    method Conclude(state: Record, outcome: Outcome, now: U64) returns (r: Record)
      ensures r == Committed(cfg, state, outcome, now)
    {
      hide Apply;
      var health := Score(state.health, outcome, now);
      // The next round counts from this round's start, or from now when that is over.
      var due := AddTime(state.started, cfg.interval);
      r := state.(health := health, phase := Phase.Waiting, deadline := Max(due, now));
    }

    // The state after a committed result; an overdue round starts the next one at once.
    function Concluded(s: Local, now: U64): Local {
      match s.process.probe
      case None => s
      case Some(probe) =>
        var done := WithProbe(s.process, probe.(pending := false));
        Local(if now >= AddTime(s.rec.started, cfg.interval) then done.(timer := Armed(0)) else done,
              s.registration, Committed(cfg, s.rec, probe.outcome, now))
    }

    // With both locks held: publish the concluded round, release, and start the next round
    // at once when it is already due.
    method Commit(state: Record, now: U64)
      requires Valid() && Locks(pid, pid) && probe != null && state == Record()
      modifies this`timer, registry`holder, cell, cell.slot0, cell.slot1, probe
      ensures Valid() && Locks(NO_PID, NO_PID) && probe == old(probe)
      ensures State() == Concluded(old(State()), now)
    {
      hide Registration, Record, Committed;
      var concluded := Conclude(state, probe.outcome, now);
      PublishRecord(concluded);
      OwnedUnlock();
      probe.pending := false;
      if now >= AddTime(state.started, cfg.interval) {
        timer := Armed(0);
      }
    }

    // submit: a declined result is left to the caller, everything else is the protocol's step.
    method Submit(c: Circumstances) returns (rc: Status)
      requires Valid() && Meets(c) && Ready(Op.Submit(c.clock, c.quit), View())
      modifies this`timer, registry`holder, cell, cell.slot0, cell.slot1, probe
      ensures Valid() && Locks(old(registry.holder), old(cell.holder)) && probe == old(probe)
      ensures !rc.Declined? ==> State() == After(old(State()), Op.Submit(c.clock, c.quit), c)
      ensures rc.Declined? ==> State() == old(State())
      ensures rc.Declined? ==> After(State(), Op.Submit(c.clock, c.quit), c) == Dropped(State())
    {
      hide Registration, Record, BeginEffect, TakeoverEffect, AnnounceEffect, RegisterEffect, ExitEffect, ObserveEffect, Committed;
      var state;
      rc, state := OwnedLock(c);
      if rc.Ok? {
        rc := SubmitLocked(c, state);
      }
    }

    // With both locks held: the phase test, the clock, and the commit.
    method SubmitLocked(c: Circumstances, state: Record) returns (rc: Status)
      requires Valid() && Locks(pid, pid) && probe != null && state == Record()
      modifies this`timer, registry`holder, cell, cell.slot0, cell.slot1, probe
      ensures Valid() && Locks(NO_PID, NO_PID) && probe == old(probe) && !rc.Error?
      ensures rc.Declined? <==> (state.phase != Preparing && state.phase != Inflight) || c.quit
      ensures rc.Again? ==> c.clock.None?
      ensures !rc.Ok? ==> State() == old(State())
      ensures rc.Ok? ==> c.clock.Some? && State() == Concluded(old(State()), c.clock.value)
    {
      hide Registration, Record, Concluded;
      if (state.phase != Preparing && state.phase != Inflight) || c.quit {
        OwnedUnlock();
        return Status.Declined;
      }
      if c.clock.None? {
        OwnedUnlock();
        return Again;
      }
      Commit(state, c.clock.value);
      return Ok;
    }

    // A pending result is offered again on every visit of the watchdog.
    method Retry(c: Circumstances)
      requires Valid() && Meets(c)
      modifies this`timer, registry`holder, cell, cell.slot0, cell.slot1, probe
      ensures Valid() && Locks(old(registry.holder), old(cell.holder)) && probe == old(probe)
      ensures State() == After(old(State()), Op.Submit(c.clock, c.quit), c)
    {
      if probe != null && probe.pending {
        var rc := Submit(c);
        if rc.Declined? {
          probe.pending := false;
        }
      }
    }

    // What a finished round reports: the verdict, and the delay since its start only for the
    // first check on a TCP connection.
    method Judge(result: bool, first: bool, measured: Option<U64>) returns (outcome: Outcome)
      requires probe != null
      ensures outcome.Success? <==> result
      ensures outcome.Success? ==> (outcome.sample.Some? <==> cfg.tcp && first && measured.Some? && measured.value >= probe.started)
      ensures outcome.Success? && outcome.sample.Some? ==> probe.started + outcome.sample.value == measured.value
    {
      if !result {
        return Failure;
      }
      if cfg.tcp && first && measured.Some? && measured.value >= probe.started {
        return Success(Some(measured.value - probe.started));
      }
      return Success(None);
    }

    // finish: the first result of a round is fixed and offered at once; nothing else is.
    method Finish(c: Circumstances, result: bool, first: bool, measured: Option<U64>)
      requires Valid() && Meets(c) && probe != null
      modifies this`timer, registry`holder, cell, cell.slot0, cell.slot1, probe
      ensures Valid() && Locks(old(registry.holder), old(cell.holder)) && probe == old(probe)
      ensures !old(probe.active) || old(probe.pending) ==> State() == old(State())
      ensures old(probe.active) && !old(probe.pending) ==>
        State() == After(Fixed(old(State()), probe.outcome), Op.Submit(c.clock, c.quit), c)
      ensures old(probe.active) && !old(probe.pending) ==> (probe.outcome.Success? <==> result)
      ensures old(probe.active) && !old(probe.pending) && result ==>
        (probe.outcome.sample.Some? <==> cfg.tcp && first && measured.Some? && measured.value >= old(probe.started))
      ensures old(probe.active) && !old(probe.pending) && result && probe.outcome.sample.Some? ==>
        old(probe.started) + probe.outcome.sample.value == measured.value
    {
      hide Registration, Record, Next, Runtime.Valid;
      if !probe.active || probe.pending {
        return;
      }
      var outcome := Judge(result, first, measured);
      Settle(outcome);
      SubmitKeepsOutcome(cfg, State(), c.clock, c.quit, c.Met(Op.Submit(c.clock, c.quit)), c.activatedAt);
      Retry(c);
    }

    method Settle(outcome: Outcome)
      requires Valid() && probe != null && probe.active && !probe.pending
      modifies probe`active, probe`pending, probe`outcome
      ensures Valid() && State() == Fixed(old(State()), outcome) && probe.outcome == outcome
    {
      hide Registration, Record;
      probe.active := false;
      probe.pending := true;
      probe.outcome := outcome;
    }

    // The cleanup of a claim that went through.
    method Adopt(next: Record, now: U64)
      requires probe != null
      modifies probe, this`timer, this`observed
      ensures View() == old(View()).(timer := Armed(cfg.interval), observed := None, probe := Some(
        Probe(next.instance, next.term, next.round, now, next.deadline, Failure, true, false, false, false)))
    {
      probe.instance, probe.term, probe.round := next.instance, next.term, next.round;
      probe.started, probe.deadline, probe.outcome := now, next.deadline, Failure;
      probe.active, probe.pending, probe.prepared, probe.announced := true, false, false, false;
      timer := Armed(cfg.interval);
      observed := None;
    }

    function Claiming(takeover: bool, c: Circumstances): Op {
      if takeover then Op.Takeover(c.clock, c.memory, c.choice) else Op.Begin(c.clock, c.memory)
    }

    // claim: on success the record and the context carry the new identity; on any other
    // return the record is untouched and at most a blank context was allocated.
    method Claim(takeover: bool, c: Circumstances) returns (rc: Status, wait: U64)
      requires Valid() && Meets(c) && Ready(Claiming(takeover, c), View())
      requires !takeover ==> !stopping && !Busy(View())
      modifies this, registry`holder, cell, cell.slot0, cell.slot1, if probe == null then {} else {probe}
      ensures Valid() && Locks(old(registry.holder), old(cell.holder))
      ensures probe == old(probe) || (old(probe) == null && probe != null && fresh(probe))
      ensures Registration() == old(Registration())
      ensures var e := After(old(State()), Claiming(takeover, c), c);
        && (rc.Ok? ==> State() == e)
        && (!rc.Ok? ==> Record() == old(Record()) && timer == old(timer) && observed == old(observed))
        && (!rc.Ok? ==> e == Refusal(State(), takeover, rc, wait))
    {
      hide Registration, Record, Critical;
      wait := 0;
      if stopping || !registered {
        return Status.Declined, wait;
      }
      if probe == null {
        if !c.memory {
          return Error, wait;
        }
        probe := new Context();
      }
      if probe.active || probe.pending {
        return Again, wait;
      }
      if c.clock.None? {
        return Again, wait;
      }
      if old(probe) == null {
        AllocationInvisible(takeover, c, old(State()));
      }
      rc, wait := LockedClaim(takeover, c);
    }

    predicate MayClaim(takeover: bool, c: Circumstances)
      reads this, if probe == null then {} else {probe}
    {
      && !stopping && registered && probe != null && !probe.active && !probe.pending && c.clock.Some?
      && Ready(Claiming(takeover, c), View())
    }

    // The record under its new identity; only a change of owner starts a new term.
    method Renamed(state: Record, now: U64) returns (r: Record)
      requires !Exhausted(View(), state)
      ensures r == ClaimedRecord(cfg, View(), state, now)
    {
      r := state;
      if r.worker != worker || r.instance != instance {
        r := r.(term := r.term + 1);
      }
      r := r.(worker := worker, owner := pid, instance := instance, round := r.round + 1);
      r := r.(started := now, phase := Preparing, deadline := AddTime(now, cfg.timeout));
    }

    // With both locks held: publish the claim, release, and hold the round.
    method Seize(state: Record, now: U64)
      requires Valid() && Locks(pid, pid) && probe != null && state == Record() && !Exhausted(View(), state)
      modifies this`timer, this`observed, probe, registry`holder, cell, cell.slot0, cell.slot1
      ensures Valid() && Locks(NO_PID, NO_PID)
      ensures var e := ClaimEffect(cfg, old(View()), state, now);
        State() == Local(e.process, old(Registration()), e.publication.record)
    {
      hide Registration, Record, ClaimedRecord, Exhausted;
      var next := Renamed(state, now);
      PublishRecord(next);
      OwnedUnlock();
      Adopt(next, now);
    }

    // claim, from the locks on.
    method LockedClaim(takeover: bool, c: Circumstances) returns (rc: Status, wait: U64)
      requires Valid() && Meets(c) && MayClaim(takeover, c)
      modifies this`timer, this`observed, probe, registry`holder, cell, cell.slot0, cell.slot1
      ensures Valid() && Locks(old(registry.holder), old(cell.holder)) && Registration() == old(Registration())
      ensures var e := After(old(State()), Claiming(takeover, c), c);
        && (rc.Ok? ==> State() == e)
        && (!rc.Ok? ==> State() == old(State()) && e == Refusal(State(), takeover, rc, wait))
    {
      hide Registration, Record, BeginEffect, TakeoverEffect, SubmitEffect, AnnounceEffect, RegisterEffect, ExitEffect, ObserveEffect, ClaimedRecord, Exhausted;
      wait := 0;
      var ok := registry.TryLock(pid);
      if !ok {
        return Again, wait;
      }
      var registration := Registration();
      if registration.instance != instance || registration.exiting || registration.pid != pid {
        registry.Unlock(pid);
        Superseded(takeover, c, State());
        return Status.Declined, wait;
      }
      ok := cell.TryLock(pid);
      if !ok {
        registry.Unlock(pid);
        return Again, wait;
      }
      var state := Record();
      rc, wait := Decide(takeover, c, registration, state);
      if rc.Ok? {
        Seize(state, c.clock.value);
      } else {
        OwnedUnlock();
      }
    }

    // The protocol's view of a claim that did not go through.
    function Refusal(s: Local, takeover: bool, rc: Status, wait: U64): Local {
      s.(process := if takeover then s.process.(observed := None) else s.process.(timer := AfterClaim(cfg, rc, wait)))
    }

    // Allocating the context beforehand makes no difference to the decision.
    lemma AllocationInvisible(takeover: bool, c: Circumstances, s: Local)
      requires Ready(Claiming(takeover, c), s.process) && c.memory
      requires Enter(cfg, Claiming(takeover, c), s.process).None?
      ensures var t := s.(process := Allocated(s.process)); After(t, Claiming(takeover, c), c) == After(s, Claiming(takeover, c), c)
    {
    }

    lemma Superseded(takeover: bool, c: Circumstances, s: Local)
      requires Ready(Claiming(takeover, c), s.process) && Enter(cfg, Claiming(takeover, c), s.process).None?
      requires s.process.probe.Some? && c.workerFree && !Current(s.registration, s.process.pid, s.process.instance)
      ensures After(s, Claiming(takeover, c), c) == Refusal(s, takeover, Status.Declined, 0)
    {
    }

    // The tests of a claim under both locks.
    method Decide(takeover: bool, c: Circumstances, registration: Registration, state: Record) returns (rc: Status, wait: U64)
      requires MayClaim(takeover, c) && Current(registration, pid, instance)
      ensures var e := Critical(cfg, Claiming(takeover, c), View(), c.activatedAt, registration, state);
        && (rc.Ok? ==> !Exhausted(View(), state) && e == ClaimEffect(cfg, View(), state, c.clock.value))
        && (!rc.Ok? ==> e == Effect(Refusal(Local(View(), registration, state), takeover, rc, wait).process, Nothing))
    {
      hide SubmitEffect, AnnounceEffect, RegisterEffect, ExitEffect, ClaimEffect;
      wait := 0;
      var now := c.clock.value;
      if takeover {
        var seen := observed.value;
        if state.term != seen.term || state.round != seen.round || state.phase != seen.phase || state.deadline != seen.deadline
           || now < AddTime(Deadline(cfg, c.activatedAt, state), cfg.grace)
           || (state.worker == worker && state.instance == instance) {
          return Again, wait;
        }
      } else {
        if state.worker != worker || (state.instance != 0 && state.instance != instance) {
          return Status.Declined, wait;
        }
        if state.phase != Initial && state.phase != Phase.Waiting {
          return Again, wait;
        }
        if state.started != 0 {
          var due := AddTime(state.started, cfg.interval);
          if now < due {
            return Again, due - now;
          }
        }
      }
      if state.round == U64_MAX || ((state.worker != worker || state.instance != instance) && state.term == U64_MAX) {
        return Error, wait;
      }
      return Ok, wait;
    }

    // begin: the check timer fired.
    method Begin(c: Circumstances)
      requires Valid() && Meets(c) && timer.Some?
      modifies this, registry`holder, cell, cell.slot0, cell.slot1, if probe == null then {} else {probe}
      ensures Valid() && Locks(old(registry.holder), old(cell.holder))
      ensures probe == old(probe) || (old(probe) == null && probe != null && fresh(probe))
      ensures State() == After(old(State()), Op.Begin(c.clock, c.memory), c)
    {
      hide Registration, Record, Critical, Contended, Blocked;
      if stopping {
        timer := None;
        return;
      }
      if probe != null && (probe.active || probe.pending) {
        timer := Armed(BUSY_RETRY_MS);
        return;
      }
      var rc, wait := Claim(false, c);
      match rc {
        case Ok =>
        case Declined => timer := None;
        case Again => timer := Armed(if wait != 0 then wait else CLAIM_RETRY_MS);
        case Error => timer := Armed(cfg.interval);
      }
    }

    // A takeover of the record the watchdog just read.
    method Takeover(c: Circumstances)
      requires Valid() && Meets(c) && observed.Some?
      modifies this, registry`holder, cell, cell.slot0, cell.slot1, if probe == null then {} else {probe}
      ensures Valid() && Locks(old(registry.holder), old(cell.holder))
      ensures probe == old(probe) || (old(probe) == null && probe != null && fresh(probe))
      ensures State() == After(old(State()), Op.Takeover(c.clock, c.memory, c.choice), c)
    {
      hide Registration, Record, SubmitEffect, AnnounceEffect, RegisterEffect, ExitEffect, BeginEffect, TakeoverEffect;
      var rc, wait := Claim(true, c);
      if !rc.Ok? {
        observed := None;
      }
    }

    // The reaction to one record: arm an unclaimed initial shard, abandon a lost round,
    // remember a foreign record.
    method React(state: Record, delay: U64)
      modifies this`timer, this`observed, if probe == null then {} else {probe}
      ensures View() == ObserveEffect(old(View()), delay, state) && probe == old(probe)
    {
      if state.phase == Initial && state.instance == 0 && state.worker == worker && timer.None? {
        timer := Armed(delay);
      }
      if probe != null && (state.worker != worker || state.instance != probe.instance
                           || state.term != probe.term || state.round != probe.round) {
        probe.active := false;
        probe.pending := false;
        timer := None;
      }
      observed := if state.worker == worker && state.instance == instance then None else Some(state);
    }

    // The watchdog reads the record and reacts to what it says about this process.
    method Observe(c: Circumstances, delay: U64)
      requires Valid() && Meets(c) && registered && !stopping
      modifies this`timer, this`observed, cell`holder, if probe == null then {} else {probe}
      ensures Valid() && Locks(old(registry.holder), old(cell.holder))
      ensures State() == After(old(State()), Op.Observe(delay), c)
    {
      hide Registration, Record, SubmitEffect, AnnounceEffect, RegisterEffect, ExitEffect, BeginEffect, TakeoverEffect, ObserveEffect;
      var ok := cell.TryLock(pid);
      if !ok {
        observed := None;
        return;
      }
      var state := Record();
      cell.Unlock(pid);
      React(state, delay);
    }

    // One peer's turn in a watchdog pass: retry a pending result, read the record, and take it
    // over when it is overdue and this worker is preferred or has waited for the preferred
    // one. A record that could not be read is not taken over.
    method Visit(c: Circumstances, delay: U64, clocks: seq<Option<U64>>, limit: U64)
      requires Valid() && Meets(c) && registered && !stopping
      requires |clocks| == |c.choice.view| && worker < |c.choice.view|
      modifies this, registry`holder, cell, cell.slot0, cell.slot1, if probe == null then {} else {probe}
      ensures Valid() && Locks(old(registry.holder), old(cell.holder))
      ensures var d := c.(choice := Watch.Scanned(c.choice, clocks, limit));
        State() == Visited(cfg, old(State()), d, delay)
    {
      hide Registration, Record, Perform, Watch.Gate, Watch.Scanned;
      Retry(c);
      Observe(c, delay);
      if observed.Some? {
        var chosen := Watch.Chooses(cfg, c.activatedAt, observed.value, worker, c.choice, clocks, limit);
        if chosen {
          Takeover(c.(choice := Watch.Scanned(c.choice, clocks, limit)));
        }
      }
    }
  }
}
