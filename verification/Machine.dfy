// The protocol at the level of single memory accesses: every process takes the lock words
// one try at a time, copies records word by word, flips the published word and unlocks,
// and may be paused or killed between any two of these actions.

module Machine {
  import opened Time
  import opened HealthCounter
  import opened Protocol
  import opened World
  import opened Slots

  datatype Pc =
    | Idle
    | LockingWorker(op: Op)
    | ReadingWorker(op: Op, buffer: Words)
    | LockingPeer(op: Op, registration: Registration)
    | ReadingPeer(op: Op, registration: Registration, buffer: Words)
    | Writing(op: Op, effect: Effect, words: Words, copied: set<nat>)
    | Releasing(next: Process, peer: bool, worker: bool)

  // suspect: a dead holder of the lock the process is waiting for.
  datatype Agent = Agent(process: Process, pc: Pc, suspect: Option<Pid>)

  // The history components are those of the protocol; nothing else of it is stored.
  datatype Machine = Machine(
    clock: U64, activatedAt: Option<U64>, workers: seq<Cell>, peer: Cell,
    agents: map<Pid, Agent>, alive: set<Pid>,
    claims: seq<Claim>, commits: seq<Commit>, issued: seq<seq<Pid>>)

  datatype Micro =
    | Outside(s: Step)
    | Enters(pid: Pid, op: Op)
    | TryLock(pid: Pid)
    | Inspect(pid: Pid)
    | ForceUnlock(pid: Pid)
    | GiveUp(pid: Pid)
    | Read(pid: Pid)
    | Sample(pid: Pid, clock: Option<U64>, quit: bool)
    | Decide(pid: Pid)
    | Copy(pid: Pid, k: nat)
    | Flip(pid: Pid)
    | Unlock(pid: Pid)

  // ---- The protocol state a machine state stands for ----

  function Shown(a: Agent): Process { if a.pc.Releasing? then a.pc.next else a.process }

  function Registrations(workers: seq<Cell>): seq<Registration> {
    seq(|workers|, i requires 0 <= i < |workers| => WordsRegistration(Live(workers[i])))
  }

  function Abstract(m: Machine): World {
    World(m.clock, m.activatedAt, Registrations(m.workers), WordsRecord(Live(m.peer)),
          map pid | pid in m.agents :: Shown(m.agents[pid]), m.alive, m.claims, m.commits, m.issued)
  }

  // The lock a process that gives up could not have.
  function Missed(pc: Pc): Contention { if pc.LockingWorker? then WorkerBusy else PeerBusy }

  // ---- Single actions ----

  predicate Acts(m: Machine, pid: Pid) {
    pid in m.alive && pid in m.agents && m.agents[pid].process.worker < |m.workers|
  }

  function At(m: Machine, pid: Pid): Pc
    requires Acts(m, pid)
  {
    m.agents[pid].pc
  }

  function Own(m: Machine, pid: Pid): Cell
    requires Acts(m, pid)
  {
    m.workers[m.agents[pid].process.worker]
  }

  function SetPc(m: Machine, pid: Pid, pc: Pc): Machine
    requires Acts(m, pid)
  {
    m.(agents := m.agents[pid := m.agents[pid].(pc := pc)])
  }

  function SetOwn(m: Machine, pid: Pid, c: Cell): Machine
    requires Acts(m, pid)
  {
    m.(workers := m.workers[m.agents[pid].process.worker := c])
  }

  function SetSuspect(m: Machine, pid: Pid, suspect: Option<Pid>): Machine
    requires Acts(m, pid)
  {
    m.(agents := m.agents[pid := m.agents[pid].(suspect := suspect)])
  }

  // The lock a waiting process tries for.
  function Wanted(m: Machine, pid: Pid): Option<Cell>
    requires Acts(m, pid)
  {
    if At(m, pid).LockingWorker? then Some(Own(m, pid))
    else if At(m, pid).LockingPeer? then Some(m.peer)
    else None
  }

  function SetWanted(m: Machine, pid: Pid, c: Cell): Machine
    requires Acts(m, pid)
  {
    if At(m, pid).LockingWorker? then SetOwn(m, pid, c) else m.(peer := c)
  }

  const NO_REGISTRATION: Registration := Registration(NO_PID, 0, 0, false)

  function FirstLock(op: Op): Pc {
    if UsesWorkerLock(op) then LockingWorker(op) else LockingPeer(op, NO_REGISTRATION)
  }

  // The words a process is copying out of the record it has locked.
  predicate ReadingMore(m: Machine, pid: Pid)
    requires Acts(m, pid)
  {
    match At(m, pid)
    case ReadingWorker(_, buffer) => |buffer| < REGISTRATION_WORDS && |buffer| < |Live(Own(m, pid))|
    case ReadingPeer(_, _, buffer) => |buffer| < RECORD_WORDS && |buffer| < |Live(m.peer)|
    case _ => false
  }

  predicate ReadAll(pc: Pc) {
    match pc
    case ReadingWorker(_, buffer) => |buffer| == REGISTRATION_WORDS
    case ReadingPeer(_, _, buffer) => |buffer| == RECORD_WORDS
    case _ => false
  }

  function PublicationWords(publication: Publication): Words {
    match publication
    case Nothing => []
    case ToWorker(registration) => RegistrationWords(registration)
    case ToPeer(rec) => RecordWords(rec)
  }

  function Decision(cfg: Config, m: Machine, pid: Pid): Effect
    requires Acts(m, pid) && ReadAll(At(m, pid))
    requires Ready(At(m, pid).op, m.agents[pid].process) && Enter(cfg, At(m, pid).op, m.agents[pid].process).None?
  {
    var p := m.agents[pid].process;
    match At(m, pid)
    case ReadingWorker(op, buffer) =>
      Critical(cfg, op, p, Activation(Abstract(m)), WordsRegistration(buffer), WordsRecord([]))
    case ReadingPeer(op, registration, buffer) =>
      Critical(cfg, op, p, Activation(Abstract(m)), registration, WordsRecord(buffer))
  }

  function DecidedBy(cfg: Config, m: Machine, pid: Pid): Machine
    requires Acts(m, pid) && ReadAll(At(m, pid))
  {
    var p := m.agents[pid].process;
    var op := At(m, pid).op;
    if !Ready(op, p) || Enter(cfg, op, p).Some? then m
    else if At(m, pid).ReadingWorker? && UsesPeerLock(op) then
      var registration := WordsRegistration(At(m, pid).buffer);
      SetPc(m, pid, if Refused(op, p, registration)
                    then Releasing(Seen(Decision(cfg, m, pid).process, Reading(op)), false, true)
                    else LockingPeer(op, registration))
    else
      var e := Decision(cfg, m, pid);
      if e.publication.Nothing? then
        SetPc(m, pid, Releasing(Seen(e.process, Reading(op)), UsesPeerLock(op), UsesWorkerLock(op)))
      else SetPc(m, pid, Writing(op, e, PublicationWords(e.publication), {}))
  }

  predicate CopyingTo(m: Machine, pid: Pid, k: nat)
    requires Acts(m, pid)
  {
    && At(m, pid).Writing? && k < |At(m, pid).words| && k !in At(m, pid).copied
    && (if At(m, pid).effect.publication.ToWorker? then k < |Spare(Own(m, pid))| else k < |Spare(m.peer)|)
  }

  function Copied(m: Machine, pid: Pid, k: nat): Machine
    requires Acts(m, pid) && CopyingTo(m, pid, k)
  {
    var pc := At(m, pid);
    var n := if pc.effect.publication.ToWorker?
             then SetOwn(m, pid, WithSpare(Own(m, pid), k, pc.words[k]))
             else m.(peer := WithSpare(m.peer, k, pc.words[k]));
    SetPc(n, pid, pc.(copied := pc.copied + {k}))
  }

  predicate CopiedAll(pc: Pc) { pc.Writing? && forall k :: 0 <= k < |pc.words| ==> k in pc.copied }

  // The flip is the single store that makes the new record the published one; the history
  // grows by what the protocol records for this operation.
  function FlippedBy(m: Machine, pid: Pid): Machine
    requires Acts(m, pid) && At(m, pid).Writing?
  {
    var p := m.agents[pid].process;
    var pc := At(m, pid);
    var n := match pc.effect.publication
             case Nothing => m
             case ToWorker(registration) =>
               SetOwn(m, pid, Flipped(Own(m, pid), false)).(
                 issued := if p.worker < |m.issued| && |m.issued| == |m.workers|
                           then PublishWorker(Abstract(m), p, pc.op.Register? && !p.registered, registration).issued
                           else m.issued)
             case ToPeer(rec) =>
               var v := PublishPeer(Abstract(m), p, pc.op, rec);
               m.(peer := Flipped(m.peer, rec.health.down), claims := v.claims, commits := v.commits);
    SetPc(n, pid, Releasing(Seen(pc.effect.process, Reading(pc.op)), UsesPeerLock(pc.op), UsesWorkerLock(pc.op)))
  }

  // The peer lock is released first, then the worker lock, then the local context is updated.
  function Unlocked(m: Machine, pid: Pid): Machine
    requires Acts(m, pid) && At(m, pid).Releasing?
  {
    var pc := At(m, pid);
    if pc.peer then SetPc(m.(peer := m.peer.(holder := NO_PID)), pid, pc.(peer := false))
    else if pc.worker then SetPc(SetOwn(m, pid, Own(m, pid).(holder := NO_PID)), pid, pc.(worker := false))
    else m.(agents := m.agents[pid := Agent(pc.next, Idle, None)])
  }

  // Local steps of an idle process and steps of the environment.
  predicate OutsideAllowed(cfg: Config, m: Machine, s: Step) {
    && Enabled(cfg, Abstract(m), s) && !s.Operate?
    && (s.Tick? || s.Spawn? || s.Crash? || m.agents[s.pid].pc.Idle?)
  }

  function Outsided(cfg: Config, m: Machine, s: Step): Machine
    requires OutsideAllowed(cfg, m, s)
  {
    var v := Exec(cfg, Abstract(m), s);
    var agents :=
      if s.Tick? || s.Crash? then m.agents
      else m.agents[s.pid := Agent(v.processes[s.pid], Idle, None)];
    m.(clock := v.clock, activatedAt := v.activatedAt, alive := v.alive, agents := agents)
  }

  function Entered(cfg: Config, m: Machine, pid: Pid, op: Op): Machine
    requires Acts(m, pid) && Ready(op, m.agents[pid].process)
  {
    var p := m.agents[pid].process;
    if Enter(cfg, op, p).Some?
    then m.(agents := m.agents[pid := Agent(Seen(Enter(cfg, op, p).value, Reading(op)), Idle, None)])
    else m.(agents := m.agents[pid := Agent(p, FirstLock(op), None)])
  }

  function GivenUp(m: Machine, pid: Pid): Machine
    requires Acts(m, pid) && Wanted(m, pid).Some? && Ready(At(m, pid).op, m.agents[pid].process)
  {
    var op := At(m, pid).op;
    var next := Seen(Contended(op, m.agents[pid].process), Reading(op));
    SetPc(m, pid, Releasing(next, false, At(m, pid).LockingPeer? && UsesWorkerLock(op)))
  }

  function Act(cfg: Config, m: Machine, a: Micro): Machine {
    match a
    case Outside(s) => if OutsideAllowed(cfg, m, s) then Outsided(cfg, m, s) else m
    case Enters(pid, op) =>
      if Acts(m, pid) && At(m, pid).Idle? && Enabled(cfg, Abstract(m), Operate(pid, op, Uncontended))
      then Entered(cfg, m, pid, op) else m
    case TryLock(pid) =>
      if Acts(m, pid) && Wanted(m, pid).Some? && Wanted(m, pid).value.holder == NO_PID then
        var n := SetWanted(m, pid, Wanted(m, pid).value.(holder := pid));
        SetPc(n, pid, if At(m, pid).LockingWorker? then ReadingWorker(At(m, pid).op, [])
                      else ReadingPeer(At(m, pid).op, At(m, pid).registration, []))
      else m
    case Inspect(pid) =>
      if Acts(m, pid) && Wanted(m, pid).Some? && Wanted(m, pid).value.holder != NO_PID
         && Wanted(m, pid).value.holder !in m.alive
      then SetSuspect(m, pid, Some(Wanted(m, pid).value.holder)) else m
    case ForceUnlock(pid) =>
      if Acts(m, pid) && m.agents[pid].suspect.Some? then
        var h := m.agents[pid].suspect.value;
        if Wanted(m, pid).Some? && Wanted(m, pid).value.holder == h
        then SetSuspect(SetWanted(m, pid, Wanted(m, pid).value.(holder := NO_PID)), pid, None)
        else SetSuspect(m, pid, None)
      else m
    case GiveUp(pid) =>
      if Acts(m, pid) && Wanted(m, pid).Some? && Ready(At(m, pid).op, m.agents[pid].process)
      then GivenUp(m, pid) else m
    case Read(pid) =>
      if Acts(m, pid) && ReadingMore(m, pid) then
        match At(m, pid)
        case ReadingWorker(op, buffer) => SetPc(m, pid, ReadingWorker(op, buffer + [Live(Own(m, pid))[|buffer|]]))
        case ReadingPeer(op, registration, buffer) =>
          SetPc(m, pid, ReadingPeer(op, registration, buffer + [Live(m.peer)[|buffer|]]))
        case _ => m
      else m
    case Sample(pid, clock, quit) =>
      if Acts(m, pid) && At(m, pid).ReadingPeer? && At(m, pid).op.Submit?
         && ReadsClock(Abstract(m), m.agents[pid].process, clock)
      then SetPc(m, pid, ReadingPeer(Submit(clock, quit), At(m, pid).registration, At(m, pid).buffer)) else m
    case Decide(pid) => if Acts(m, pid) && ReadAll(At(m, pid)) then DecidedBy(cfg, m, pid) else m
    case Copy(pid, k) => if Acts(m, pid) && CopyingTo(m, pid, k) then Copied(m, pid, k) else m
    case Flip(pid) => if Acts(m, pid) && CopiedAll(At(m, pid)) then FlippedBy(m, pid) else m
    case Unlock(pid) => if Acts(m, pid) && At(m, pid).Releasing? then Unlocked(m, pid) else m
  }

  function ActAll(cfg: Config, m: Machine, actions: seq<Micro>): Machine {
    if actions == [] then m
    else Act(cfg, ActAll(cfg, m, actions[..|actions| - 1]), actions[|actions| - 1])
  }

  // ---- The protocol step an action amounts to, if any ----

  function StepOf(cfg: Config, m: Machine, a: Micro): Option<Step> {
    match a
    case Outside(s) => if OutsideAllowed(cfg, m, s) then Some(s) else None
    case Enters(pid, op) =>
      if Acts(m, pid) && At(m, pid).Idle? && Enabled(cfg, Abstract(m), Operate(pid, op, Uncontended))
         && Enter(cfg, op, m.agents[pid].process).Some?
      then Some(Operate(pid, op, Uncontended)) else None
    case GiveUp(pid) =>
      if Acts(m, pid) && Wanted(m, pid).Some? && Ready(At(m, pid).op, m.agents[pid].process)
      then Some(Operate(pid, At(m, pid).op, Missed(At(m, pid)))) else None
    case Decide(pid) =>
      if Acts(m, pid) && ReadAll(At(m, pid)) && At(DecidedBy(cfg, m, pid), pid).Releasing?
      then Some(Operate(pid, At(m, pid).op, Uncontended)) else None
    case Flip(pid) =>
      if Acts(m, pid) && CopiedAll(At(m, pid)) then Some(Operate(pid, At(m, pid).op, Uncontended)) else None
    case _ => None
  }
}
