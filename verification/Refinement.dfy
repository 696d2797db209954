// Every run of the machine is a run of the atomic protocol: locks, torn copies, deaths and
// lock recovery are invisible to it.

module Refinement {
  import opened Time
  import opened HealthCounter
  import opened Protocol
  import opened World
  import opened Slots
  import opened Machine
  import opened Invariant

  predicate CellOk(c: Cell, width: nat) {
    |c.slot0| == width && |c.slot1| == width && c.published < 4
  }

  predicate HoldsWorker(pc: Pc) {
    match pc
    case Idle => false
    case LockingWorker(_) => false
    case ReadingWorker(_, _) => true
    case LockingPeer(op, _) => UsesWorkerLock(op)
    case ReadingPeer(op, _, _) => UsesWorkerLock(op)
    case Writing(op, _, _, _) => UsesWorkerLock(op)
    case Releasing(_, _, worker) => worker
  }

  predicate HoldsPeer(pc: Pc) {
    match pc
    case ReadingPeer(_, _, _) => true
    case Writing(op, _, _, _) => UsesPeerLock(op)
    case Releasing(_, peer, _) => peer
    case _ => false
  }

  predicate HasOp(pc: Pc) { !pc.Idle? && !pc.Releasing? }

  // What a process has read under a lock is what the live record still says.
  predicate Knows(m: Machine, pid: Pid)
    requires Acts(m, pid)
  {
    match At(m, pid)
    case ReadingWorker(_, buffer) => buffer <= Live(Own(m, pid))
    case LockingPeer(op, registration) =>
      && UsesPeerLock(op) && Ready(op, m.agents[pid].process) && !Refused(op, m.agents[pid].process, registration)
      && (UsesWorkerLock(op) ==> registration == WordsRegistration(Live(Own(m, pid))))
    case ReadingPeer(op, registration, buffer) =>
      && UsesPeerLock(op) && buffer <= Live(m.peer)
      && (UsesWorkerLock(op) ==> registration == WordsRegistration(Live(Own(m, pid))))
    case LockingWorker(op) => UsesWorkerLock(op)
    case _ => true
  }

  // The words written so far are those of the decided publication.
  predicate WritesTo(c: Cell, words: Words, copied: set<nat>) {
    forall k :: k in copied ==> k < |words| && k < |Spare(c)| && Spare(c)[k] == words[k]
  }

  // The operation a process is in the middle of is one the protocol allows right now, and
  // one that needs its locks.
  predicate OpOk(cfg: Config, w: World, pid: Pid, op: Op) {
    Enabled(cfg, w, Operate(pid, op, Uncontended)) && Enter(cfg, op, w.processes[pid]).None?
  }

  ghost predicate WritesOk(cfg: Config, m: Machine, pid: Pid)
    requires Acts(m, pid) && At(m, pid).Writing?
  {
    var pc := At(m, pid);
    && Enabled(cfg, Abstract(m), Operate(pid, pc.op, Uncontended))
    && pc.effect == EffectOf(cfg, Abstract(m), pid, pc.op, Uncontended)
    && !pc.effect.publication.Nothing?
    && pc.words == PublicationWords(pc.effect.publication)
    && (pc.effect.publication.ToWorker? ==> !UsesPeerLock(pc.op) && WritesTo(Own(m, pid), pc.words, pc.copied))
    && (pc.effect.publication.ToPeer? ==> UsesPeerLock(pc.op) && UsesWorkerLock(pc.op) && WritesTo(m.peer, pc.words, pc.copied))
  }

  ghost predicate AgentOk(cfg: Config, m: Machine, pid: Pid)
    requires Acts(m, pid)
  {
    var a := m.agents[pid];
    && (HoldsWorker(a.pc) ==> Own(m, pid).holder == pid)
    && (HoldsPeer(a.pc) ==> m.peer.holder == pid)
    && (HasOp(a.pc) ==> OpOk(cfg, Abstract(m), pid, a.pc.op))
    && Knows(m, pid)
    && (a.pc.Writing? ==> WritesOk(cfg, m, pid))
    && (a.suspect.Some? ==> a.suspect.value in m.agents && a.suspect.value !in m.alive)
  }

  ghost predicate CellsOk(cfg: Config, m: Machine) {
    && |m.workers| == cfg.workers && |m.issued| == cfg.workers
    && CellOk(m.peer, RECORD_WORDS)
    && RoutedDown(m.peer) == WordsRecord(Live(m.peer)).health.down
    && (m.peer.holder == NO_PID || m.peer.holder in m.agents)
    && forall i :: 0 <= i < |m.workers| ==>
         CellOk(m.workers[i], REGISTRATION_WORDS) && (m.workers[i].holder == NO_PID || m.workers[i].holder in m.agents)
  }

  predicate NameOk(cfg: Config, pid: Pid, a: Agent) {
    a.process.worker < cfg.workers && a.process.pid == pid && Shown(a).worker == a.process.worker && Shown(a).pid == pid
  }

  ghost predicate NamesOk(cfg: Config, m: Machine) {
    forall pid :: pid in m.agents ==> NameOk(cfg, pid, m.agents[pid])
  }

  ghost predicate AgentsOk(cfg: Config, m: Machine) {
    && NO_PID !in m.agents && m.alive <= m.agents.Keys
    && NamesOk(cfg, m)
    && (forall pid :: pid in m.alive && Acts(m, pid) ==> AgentOk(cfg, m, pid))
  }

  ghost predicate MachineInv(cfg: Config, m: Machine) { CellsOk(cfg, m) && AgentsOk(cfg, m) }

  predicate Exclusive(m: Machine, p: Pid, q: Pid) {
    && Acts(m, p) && Acts(m, q)
    && !(HoldsPeer(At(m, p)) && HoldsPeer(At(m, q)))
    && (m.agents[p].process.worker == m.agents[q].process.worker ==> !(HoldsWorker(At(m, p)) && HoldsWorker(At(m, q))))
  }

  // ---- Framing: what other processes rely on ----

  // The step leaves everything alone that process q depends on.
  predicate Undisturbed(m: Machine, n: Machine, q: Pid)
    requires Acts(m, q)
  {
    && Acts(n, q) && n.agents[q] == m.agents[q]
    && |n.workers| == |m.workers| && |n.issued| == |m.issued|
    && m.clock <= n.clock && (m.activatedAt.Some? ==> n.activatedAt == m.activatedAt)
    && (HoldsWorker(At(m, q)) ==> Own(n, q) == Own(m, q))
    && (HoldsPeer(At(m, q)) ==> n.peer == m.peer)
    && (m.agents[q].suspect.Some? && m.agents[q].suspect.value in m.agents && m.agents[q].suspect.value !in m.alive ==>
          m.agents[q].suspect.value in n.agents && m.agents[q].suspect.value !in n.alive)
  }

  lemma StaysEnabled(cfg: Config, m: Machine, n: Machine, q: Pid, op: Op)
    requires Acts(m, q) && Undisturbed(m, n, q) && !m.agents[q].pc.Releasing?
    requires Enabled(cfg, Abstract(m), Operate(q, op, Uncontended))
    ensures Enabled(cfg, Abstract(n), Operate(q, op, Uncontended))
  {
  }

  // The decision of an operation depends only on what its locks protect.
  lemma SameEffect(cfg: Config, m: Machine, n: Machine, q: Pid, op: Op)
    requires Acts(m, q) && Undisturbed(m, n, q) && At(m, q).Writing? && At(m, q).op == op
    requires Enabled(cfg, Abstract(m), Operate(q, op, Uncontended))
    requires m.agents[q].process.registered ==> m.activatedAt.Some?
    requires Enter(cfg, op, m.agents[q].process).None?
    ensures Enabled(cfg, Abstract(n), Operate(q, op, Uncontended))
    ensures EffectOf(cfg, Abstract(n), q, op, Uncontended) == EffectOf(cfg, Abstract(m), q, op, Uncontended)
  {
    StaysEnabled(cfg, m, n, q, op);
    hide RegisterEffect, ExitEffect, AnnounceEffect, SubmitEffect, BeginEffect, TakeoverEffect;
    hide WordsRecord, WordsRegistration, Enter;
    var i := m.agents[q].process.worker;
    assert Abstract(n).processes[q] == Abstract(m).processes[q];
    if UsesWorkerLock(op) {
      assert Abstract(n).registrations[i] == Abstract(m).registrations[i];
    }
    if UsesPeerLock(op) {
      assert Abstract(n).rec == Abstract(m).rec;
    }
  }

  ghost predicate Full(cfg: Config, initial: Record, m: Machine) {
    MachineInv(cfg, m) && Inv(cfg, initial, Abstract(m))
  }

  lemma AgentFrame(cfg: Config, initial: Record, m: Machine, n: Machine, q: Pid)
    requires Full(cfg, initial, m) && q in m.alive && Acts(m, q) && Undisturbed(m, n, q)
    ensures AgentOk(cfg, n, q)
  {
    assert AgentOk(cfg, m, q);
    assert m.agents[q].pc.Writing? ==> m.agents[q].process.registered ==> m.activatedAt.Some? by {
      Known(cfg, initial, Abstract(m), q);
    }
    hide Inv, MachineInv;
    if HasOp(m.agents[q].pc) {
      StaysEnabled(cfg, m, n, q, m.agents[q].pc.op);
      if m.agents[q].pc.Writing? {
        SameEffect(cfg, m, n, q, m.agents[q].pc.op);
      }
    }
    hide Enabled, EffectOf, WordsRegistration, Enter;
  }

  // One process acted; the others were not disturbed.
  lemma OthersKeep(cfg: Config, initial: Record, m: Machine, n: Machine, pid: Pid)
    requires Full(cfg, initial, m) && CellsOk(cfg, n)
    requires NO_PID !in n.agents && n.alive <= n.agents.Keys
    requires NamesOk(cfg, n)
    requires forall q :: q in n.alive && q != pid ==> q in m.alive && Acts(m, q) && Undisturbed(m, n, q)
    requires pid in n.alive ==> Acts(n, pid) && AgentOk(cfg, n, pid)
    ensures MachineInv(cfg, n)
  {
    forall q | q in n.alive && Acts(n, q) ensures AgentOk(cfg, n, q) {
      if q != pid {
        AgentFrame(cfg, initial, m, n, q);
      }
    }
  }

  // ---- Single actions ----

  function WithAgent(m: Machine, pid: Pid, a: Agent): Machine { m.(agents := m.agents[pid := a]) }

  lemma SameAbstraction(m: Machine, pid: Pid, a: Agent)
    requires pid in m.agents && Shown(a) == Shown(m.agents[pid])
    ensures Abstract(WithAgent(m, pid, a)) == Abstract(m)
  {
    hide Shown, Registrations, WordsRecord;
  }

  lemma NewAbstraction(m: Machine, pid: Pid, a: Agent)
    requires Shown(a).pid == pid
    ensures Abstract(WithAgent(m, pid, a)) == Put(Abstract(m), Shown(a))
  {
    hide Shown, Registrations, WordsRecord;
    assert Abstract(WithAgent(m, pid, a)).processes == Put(Abstract(m), Shown(a)).processes;
  }

  lemma AgentKnown(cfg: Config, initial: Record, m: Machine, pid: Pid)
    requires Full(cfg, initial, m) && pid in m.alive
    ensures Acts(m, pid) && AgentOk(cfg, m, pid) && NameOk(cfg, pid, m.agents[pid])
    ensures pid != NO_PID && NO_PID !in m.alive
    ensures CellsOk(cfg, m)
  {
    hide Inv, AgentOk;
    assert pid in m.agents.Keys;
  }

  // A process changed memory it may change, and its own program counter.
  lemma Assemble(cfg: Config, initial: Record, m: Machine, u: Machine, pid: Pid, a: Agent)
    requires Full(cfg, initial, m) && pid in m.alive && Acts(m, pid)
    requires u.agents == m.agents && u.alive == m.alive && CellsOk(cfg, u)
    requires NameOk(cfg, pid, a)
    requires Acts(WithAgent(u, pid, a), pid) && AgentOk(cfg, WithAgent(u, pid, a), pid)
    requires forall q :: q in m.alive && q != pid ==> Acts(m, q) && Undisturbed(m, WithAgent(u, pid, a), q)
    ensures MachineInv(cfg, WithAgent(u, pid, a))
  {
    hide Inv, AgentOk, Undisturbed, CellOk, WordsRecord;
    OthersKeep(cfg, initial, m, WithAgent(u, pid, a), pid);
  }

  lemma LocalOthers(cfg: Config, initial: Record, m: Machine, pid: Pid, a: Agent)
    requires Full(cfg, initial, m) && pid in m.agents
    ensures forall q :: q in m.alive && q != pid ==> Acts(m, q) && Undisturbed(m, WithAgent(m, pid, a), q)
  {
    hide Inv, AgentOk, HoldsWorker, HoldsPeer;
    forall q | q in m.alive && q != pid ensures Acts(m, q) && Undisturbed(m, WithAgent(m, pid, a), q) {
      assert q in m.agents.Keys;
    }
  }

  // What a process has read and written so far agrees with the shared state.
  ghost predicate Consistent(cfg: Config, m: Machine, pid: Pid) {
    Acts(m, pid) ==> Knows(m, pid) && (At(m, pid).Writing? ==> WritesOk(cfg, m, pid))
  }

  // A step inside one process that changes no memory and is invisible to the protocol.
  lemma QuietStep(cfg: Config, initial: Record, m: Machine, pid: Pid, a: Agent)
    requires Full(cfg, initial, m) && pid in m.alive && Acts(m, pid)
    requires a.process == m.agents[pid].process && !a.pc.Releasing? && !At(m, pid).Releasing?
    requires HoldsWorker(a.pc) ==> HoldsWorker(At(m, pid))
    requires HoldsPeer(a.pc) ==> HoldsPeer(At(m, pid))
    requires HasOp(a.pc) ==> OpOk(cfg, Abstract(m), pid, a.pc.op)
    requires Consistent(cfg, WithAgent(m, pid, a), pid)
    requires a.suspect == m.agents[pid].suspect || a.suspect.None?
             || (a.suspect.value in m.agents && a.suspect.value !in m.alive)
    ensures MachineInv(cfg, WithAgent(m, pid, a))
    ensures Abstract(WithAgent(m, pid, a)) == Abstract(m)
  {
    AgentKnown(cfg, initial, m, pid);
    SameAbstraction(m, pid, a);
    LocalOthers(cfg, initial, m, pid, a);
    hide OpOk, Full, Enabled, Enter, Knows, WritesOk, HoldsWorker, HoldsPeer, Abstract, CellsOk, Undisturbed;
    assert AgentOk(cfg, WithAgent(m, pid, a), pid);
    hide AgentOk;
    Assemble(cfg, initial, m, m, pid, a);
  }

  // The process finished its operation and shows a new local state.
  lemma VisibleStep(cfg: Config, initial: Record, m: Machine, pid: Pid, a: Agent)
    requires Full(cfg, initial, m) && pid in m.alive && Acts(m, pid)
    requires NameOk(cfg, pid, a) && !HasOp(a.pc) && a.process.worker == m.agents[pid].process.worker
    requires HoldsWorker(a.pc) ==> HoldsWorker(At(m, pid))
    requires HoldsPeer(a.pc) ==> HoldsPeer(At(m, pid))
    requires a.suspect == m.agents[pid].suspect || a.suspect.None?
    ensures var n := WithAgent(m, pid, a); MachineInv(cfg, n) && Abstract(n) == Put(Abstract(m), Shown(a))
  {
    AgentKnown(cfg, initial, m, pid);
    NewAbstraction(m, pid, a);
    LocalOthers(cfg, initial, m, pid, a);
    hide OpOk, Full, Enabled, Enter, WritesOk, Abstract, CellsOk, Undisturbed;
    assert AgentOk(cfg, WithAgent(m, pid, a), pid);
    hide AgentOk;
    Assemble(cfg, initial, m, m, pid, a);
  }

  lemma ReadWorkerWord(cfg: Config, initial: Record, m: Machine, pid: Pid, a: Agent)
    requires Full(cfg, initial, m) && pid in m.alive && Acts(m, pid)
    requires At(m, pid).ReadingWorker? && |At(m, pid).buffer| < |Live(Own(m, pid))|
    requires var buffer := At(m, pid).buffer;
      a == m.agents[pid].(pc := ReadingWorker(At(m, pid).op, buffer + [Live(Own(m, pid))[|buffer|]]))
    ensures var n := WithAgent(m, pid, a); MachineInv(cfg, n) && Abstract(n) == Abstract(m)
  {
    AgentKnown(cfg, initial, m, pid);
    hide OpOk, WritesOk, Full, Abstract, CellsOk, Enabled, Enter, Live;
    QuietStep(cfg, initial, m, pid, a);
  }

  lemma OneMoreWord(buffer: Words, live: Words)
    requires buffer <= live && |buffer| < |live|
    ensures buffer + [live[|buffer|]] <= live
  {
  }

  lemma ReadPeerWord(cfg: Config, initial: Record, m: Machine, pid: Pid, a: Agent)
    requires Full(cfg, initial, m) && pid in m.alive && Acts(m, pid)
    requires At(m, pid).ReadingPeer? && |At(m, pid).buffer| < |Live(m.peer)|
    requires var pc := At(m, pid);
      a == m.agents[pid].(pc := ReadingPeer(pc.op, pc.registration, pc.buffer + [Live(m.peer)[|pc.buffer|]]))
    ensures var n := WithAgent(m, pid, a); MachineInv(cfg, n) && Abstract(n) == Abstract(m)
  {
    AgentKnown(cfg, initial, m, pid);
    hide OpOk, WritesOk, Full, Abstract, CellsOk, Enabled, Enter, Live, WordsRegistration, Ready, Refused;
    OneMoreWord(At(m, pid).buffer, Live(m.peer));
    assert Consistent(cfg, WithAgent(m, pid, a), pid);
    hide Consistent, Knows;
    QuietStep(cfg, initial, m, pid, a);
  }

  lemma ReadKeeps(cfg: Config, initial: Record, m: Machine, pid: Pid)
    requires Full(cfg, initial, m)
    ensures var n := Act(cfg, m, Read(pid)); MachineInv(cfg, n) && Abstract(n) == Abstract(m)
  {
    var n := Act(cfg, m, Read(pid));
    if Acts(m, pid) && ReadingMore(m, pid) {
      assert n == WithAgent(m, pid, n.agents[pid]);
      if At(m, pid).ReadingWorker? {
        ReadWorkerWord(cfg, initial, m, pid, n.agents[pid]);
      } else {
        ReadPeerWord(cfg, initial, m, pid, n.agents[pid]);
      }
      hide Act, Full, MachineInv, Abstract;
    } else {
      assert n == m;
      hide Inv, Act;
    }
  }

  lemma SampledOp(cfg: Config, w: World, pid: Pid, a: Op, b: Op)
    requires a.Submit? && b.Submit? && OpOk(cfg, w, pid, a) && ReadsClock(w, w.processes[pid], b.clock)
    ensures OpOk(cfg, w, pid, b)
  {
  }

  lemma Samples(cfg: Config, initial: Record, m: Machine, pid: Pid, pc: Pc)
    requires Full(cfg, initial, m) && pid in m.alive && Acts(m, pid)
    requires At(m, pid).ReadingPeer? && At(m, pid).op.Submit? && pc.ReadingPeer? && pc.op.Submit?
    requires pc == ReadingPeer(pc.op, At(m, pid).registration, At(m, pid).buffer)
    requires ReadsClock(Abstract(m), m.agents[pid].process, pc.op.clock)
    ensures var n := SetPc(m, pid, pc); MachineInv(cfg, n) && Abstract(n) == Abstract(m)
  {
    AgentKnown(cfg, initial, m, pid);
    var a := m.agents[pid].(pc := pc);
    assert Abstract(m).processes[pid] == m.agents[pid].process;
    hide Full, WordsRegistration, WordsRecord, WritesOk, CellsOk, Abstract, Enabled, Enter, Live, OpOk;
    SampledOp(cfg, Abstract(m), pid, At(m, pid).op, pc.op);
    assert Consistent(cfg, WithAgent(m, pid, a), pid);
    hide Consistent, Knows, ReadsClock;
    QuietStep(cfg, initial, m, pid, a);
  }

  lemma SampleKeeps(cfg: Config, initial: Record, m: Machine, pid: Pid, clock: Option<U64>, quit: bool)
    requires Full(cfg, initial, m)
    ensures var n := Act(cfg, m, Sample(pid, clock, quit)); MachineInv(cfg, n) && Abstract(n) == Abstract(m)
  {
    hide Full, MachineInv, Abstract;
    if Acts(m, pid) && At(m, pid).ReadingPeer? && At(m, pid).op.Submit?
       && ReadsClock(Abstract(m), m.agents[pid].process, clock) {
      Samples(cfg, initial, m, pid, ReadingPeer(Submit(clock, quit), At(m, pid).registration, At(m, pid).buffer));
    } else {
      FullInv(cfg, initial, m);
    }
  }

  lemma Inspects(cfg: Config, initial: Record, m: Machine, pid: Pid)
    requires Full(cfg, initial, m) && pid in m.alive && Acts(m, pid) && Wanted(m, pid).Some?
    requires Wanted(m, pid).value.holder != NO_PID && Wanted(m, pid).value.holder !in m.alive
    ensures var n := SetSuspect(m, pid, Some(Wanted(m, pid).value.holder)); MachineInv(cfg, n) && Abstract(n) == Abstract(m)
  {
    AgentKnown(cfg, initial, m, pid);
    var a := m.agents[pid].(suspect := Some(Wanted(m, pid).value.holder));
    hide Full, Abstract, WordsRegistration, WordsRecord, Enabled, Enter, OpOk, WritesOk, Live, CellOk, Ready, Refused;
    assert Consistent(cfg, WithAgent(m, pid, a), pid);
    hide Consistent, Knows;
    QuietStep(cfg, initial, m, pid, a);
  }

  lemma InspectKeeps(cfg: Config, initial: Record, m: Machine, pid: Pid)
    requires Full(cfg, initial, m)
    ensures var n := Act(cfg, m, Inspect(pid)); MachineInv(cfg, n) && Abstract(n) == Abstract(m)
  {
    hide Full, MachineInv, Abstract;
    if Acts(m, pid) && Wanted(m, pid).Some? && Wanted(m, pid).value.holder != NO_PID
       && Wanted(m, pid).value.holder !in m.alive {
      Inspects(cfg, initial, m, pid);
    } else {
      FullInv(cfg, initial, m);
    }
  }

  // ---- Lock words ----

  function WithOwnHolder(m: Machine, pid: Pid, holder: Pid): Machine
    requires Acts(m, pid)
  {
    SetOwn(m, pid, Own(m, pid).(holder := holder))
  }

  function WithPeerHolder(m: Machine, holder: Pid): Machine { m.(peer := m.peer.(holder := holder)) }

  lemma HolderInvisible(m: Machine, pid: Pid, holder: Pid)
    requires Acts(m, pid)
    ensures Abstract(WithOwnHolder(m, pid, holder)) == Abstract(m)
    ensures Abstract(WithPeerHolder(m, holder)) == Abstract(m)
  {
    hide WordsRecord, WordsRegistration;
    assert Registrations(WithOwnHolder(m, pid, holder).workers) == Registrations(m.workers);
  }

  lemma HolderCells(cfg: Config, m: Machine, pid: Pid, holder: Pid)
    requires CellsOk(cfg, m) && Acts(m, pid) && (holder == NO_PID || holder == pid)
    ensures CellsOk(cfg, WithOwnHolder(m, pid, holder)) && CellsOk(cfg, WithPeerHolder(m, holder))
  {
    hide WordsRecord;
    assert Live(WithPeerHolder(m, holder).peer) == Live(m.peer);
  }

  // Nobody alive but pid itself can be relying on this lock.
  predicate Free(m: Machine, c: Cell, pid: Pid) { c.holder == pid || c.holder !in m.alive }

  lemma OwnLockOthers(cfg: Config, initial: Record, m: Machine, pid: Pid, h: Pid, a: Agent)
    requires Full(cfg, initial, m) && Acts(m, pid) && Free(m, Own(m, pid), pid)
    ensures var n := WithAgent(WithOwnHolder(m, pid, h), pid, a);
      forall q :: q in m.alive && q != pid ==> Acts(m, q) && Undisturbed(m, n, q)
  {
    var n := WithAgent(WithOwnHolder(m, pid, h), pid, a);
    forall q | q in m.alive && q != pid ensures Acts(m, q) && Undisturbed(m, n, q) {
      AgentKnown(cfg, initial, m, q);
      hide OpOk, Full, CellsOk, Knows, Enabled, Enter, WritesOk, HoldsWorker, HoldsPeer;
    }
  }

  lemma PeerLockOthers(cfg: Config, initial: Record, m: Machine, pid: Pid, h: Pid, a: Agent)
    requires Full(cfg, initial, m) && Acts(m, pid) && Free(m, m.peer, pid)
    ensures var n := WithAgent(WithPeerHolder(m, h), pid, a);
      forall q :: q in m.alive && q != pid ==> Acts(m, q) && Undisturbed(m, n, q)
  {
    var n := WithAgent(WithPeerHolder(m, h), pid, a);
    forall q | q in m.alive && q != pid ensures Acts(m, q) && Undisturbed(m, n, q) {
      AgentKnown(cfg, initial, m, q);
      hide OpOk, Full, CellsOk, Knows, Enabled, Enter, WritesOk, HoldsWorker, HoldsPeer;
    }
  }

  // A process changes a holder word together with its own program counter.
  lemma OwnLockStep(cfg: Config, initial: Record, m: Machine, pid: Pid, h: Pid, a: Agent)
    requires Full(cfg, initial, m) && pid in m.alive && Acts(m, pid) && Free(m, Own(m, pid), pid)
    requires h == NO_PID || h == pid
    requires NameOk(cfg, pid, a) && Shown(a) == Shown(m.agents[pid])
    requires var n := WithAgent(WithOwnHolder(m, pid, h), pid, a); Acts(n, pid) && AgentOk(cfg, n, pid)
    ensures var n := WithAgent(WithOwnHolder(m, pid, h), pid, a); MachineInv(cfg, n) && Abstract(n) == Abstract(m)
  {
    hide AgentOk;
    AgentKnown(cfg, initial, m, pid);
    HolderInvisible(m, pid, h);
    SameAbstraction(WithOwnHolder(m, pid, h), pid, a);
    HolderCells(cfg, m, pid, h);
    OwnLockOthers(cfg, initial, m, pid, h, a);
    hide Full, CellsOk, Undisturbed, Abstract, Shown;
    Assemble(cfg, initial, m, WithOwnHolder(m, pid, h), pid, a);
  }

  lemma PeerLockStep(cfg: Config, initial: Record, m: Machine, pid: Pid, h: Pid, a: Agent)
    requires Full(cfg, initial, m) && pid in m.alive && Acts(m, pid) && Free(m, m.peer, pid)
    requires h == NO_PID || h == pid
    requires NameOk(cfg, pid, a) && Shown(a) == Shown(m.agents[pid])
    requires var n := WithAgent(WithPeerHolder(m, h), pid, a); Acts(n, pid) && AgentOk(cfg, n, pid)
    ensures var n := WithAgent(WithPeerHolder(m, h), pid, a); MachineInv(cfg, n) && Abstract(n) == Abstract(m)
  {
    hide AgentOk;
    AgentKnown(cfg, initial, m, pid);
    HolderInvisible(m, pid, h);
    SameAbstraction(WithPeerHolder(m, h), pid, a);
    HolderCells(cfg, m, pid, h);
    PeerLockOthers(cfg, initial, m, pid, h, a);
    hide Full, CellsOk, Undisturbed, Abstract, Shown;
    Assemble(cfg, initial, m, WithPeerHolder(m, h), pid, a);
  }

  lemma TryWorkerLock(cfg: Config, initial: Record, m: Machine, pid: Pid)
    requires Full(cfg, initial, m) && pid in m.alive && Acts(m, pid)
    requires At(m, pid).LockingWorker? && Own(m, pid).holder == NO_PID
    ensures var n := WithAgent(WithOwnHolder(m, pid, pid), pid, m.agents[pid].(pc := ReadingWorker(At(m, pid).op, [])));
      MachineInv(cfg, n) && Abstract(n) == Abstract(m)
  {
    var a := m.agents[pid].(pc := ReadingWorker(At(m, pid).op, []));
    AgentKnown(cfg, initial, m, pid);
    HolderInvisible(m, pid, pid);
    SameAbstraction(WithOwnHolder(m, pid, pid), pid, a);
    hide OpOk, WritesOk, Full, Abstract, Enabled, Enter, Live, CellsOk, Ready, Refused;
    OwnLockStep(cfg, initial, m, pid, pid, a);
  }

  lemma TryPeerLock(cfg: Config, initial: Record, m: Machine, pid: Pid)
    requires Full(cfg, initial, m) && pid in m.alive && Acts(m, pid)
    requires At(m, pid).LockingPeer? && m.peer.holder == NO_PID
    ensures var pc := ReadingPeer(At(m, pid).op, At(m, pid).registration, []);
      var n := WithAgent(WithPeerHolder(m, pid), pid, m.agents[pid].(pc := pc));
      MachineInv(cfg, n) && Abstract(n) == Abstract(m)
  {
    var a := m.agents[pid].(pc := ReadingPeer(At(m, pid).op, At(m, pid).registration, []));
    AgentKnown(cfg, initial, m, pid);
    HolderInvisible(m, pid, pid);
    SameAbstraction(WithPeerHolder(m, pid), pid, a);
    hide OpOk, WritesOk, Full, Abstract, Enabled, Enter, Live, CellsOk, WordsRegistration, Ready, Refused, Contended;
    var n := WithAgent(WithPeerHolder(m, pid), pid, a);
    assert Knows(n, pid) && (HoldsWorker(a.pc) ==> Own(n, pid).holder == pid);
    hide Knows, HoldsWorker;
    assert AgentOk(cfg, n, pid);
    hide AgentOk;
    PeerLockStep(cfg, initial, m, pid, pid, a);
  }

  lemma TryLockKeeps(cfg: Config, initial: Record, m: Machine, pid: Pid)
    requires Full(cfg, initial, m)
    ensures var n := Act(cfg, m, TryLock(pid)); MachineInv(cfg, n) && Abstract(n) == Abstract(m)
  {
    if Acts(m, pid) && Wanted(m, pid).Some? && Wanted(m, pid).value.holder == NO_PID {
      if At(m, pid).LockingWorker? {
        TryWorkerLock(cfg, initial, m, pid);
      } else {
        TryPeerLock(cfg, initial, m, pid);
      }
      hide Full, Abstract, MachineInv;
    } else {
      assert Act(cfg, m, TryLock(pid)) == m;
      hide Inv;
    }
  }

  lemma ForceWorkerLock(cfg: Config, initial: Record, m: Machine, pid: Pid)
    requires Full(cfg, initial, m) && pid in m.alive && Acts(m, pid)
    requires At(m, pid).LockingWorker? && m.agents[pid].suspect == Some(Own(m, pid).holder)
    ensures var n := WithAgent(WithOwnHolder(m, pid, NO_PID), pid, m.agents[pid].(suspect := None));
      MachineInv(cfg, n) && Abstract(n) == Abstract(m)
  {
    var a := m.agents[pid].(suspect := None);
    AgentKnown(cfg, initial, m, pid);
    HolderInvisible(m, pid, NO_PID);
    SameAbstraction(WithOwnHolder(m, pid, NO_PID), pid, a);
    hide OpOk, Full, Abstract, Enabled, Enter, Live, CellsOk;
    OwnLockStep(cfg, initial, m, pid, NO_PID, a);
  }

  lemma ForcePeerLock(cfg: Config, initial: Record, m: Machine, pid: Pid)
    requires Full(cfg, initial, m) && pid in m.alive && Acts(m, pid)
    requires At(m, pid).LockingPeer? && m.agents[pid].suspect == Some(m.peer.holder)
    ensures var n := WithAgent(WithPeerHolder(m, NO_PID), pid, m.agents[pid].(suspect := None));
      MachineInv(cfg, n) && Abstract(n) == Abstract(m)
  {
    var a := m.agents[pid].(suspect := None);
    AgentKnown(cfg, initial, m, pid);
    HolderInvisible(m, pid, NO_PID);
    SameAbstraction(WithPeerHolder(m, NO_PID), pid, a);
    hide OpOk, Full, Abstract, Enabled, Enter, Live, CellsOk, WordsRegistration, Ready, Refused;
    PeerLockStep(cfg, initial, m, pid, NO_PID, a);
  }

  lemma DropSuspect(cfg: Config, initial: Record, m: Machine, pid: Pid)
    requires Full(cfg, initial, m) && pid in m.alive && Acts(m, pid)
    ensures var n := WithAgent(m, pid, m.agents[pid].(suspect := None)); MachineInv(cfg, n) && Abstract(n) == Abstract(m)
  {
    var a := m.agents[pid].(suspect := None);
    AgentKnown(cfg, initial, m, pid);
    SameAbstraction(m, pid, a);
    LocalOthers(cfg, initial, m, pid, a);
    hide OpOk, Ready, Refused, Full, Enabled, Enter, EffectOf, Abstract, CellsOk, Undisturbed, HoldsPeer, HoldsWorker;
    assert AgentOk(cfg, WithAgent(m, pid, a), pid);
    hide AgentOk;
    Assemble(cfg, initial, m, m, pid, a);
  }

  lemma ForceUnlockKeeps(cfg: Config, initial: Record, m: Machine, pid: Pid)
    requires Full(cfg, initial, m)
    ensures var n := Act(cfg, m, ForceUnlock(pid)); MachineInv(cfg, n) && Abstract(n) == Abstract(m)
  {
    if Acts(m, pid) && m.agents[pid].suspect.Some? {
      if Wanted(m, pid).Some? && Wanted(m, pid).value.holder == m.agents[pid].suspect.value {
        if At(m, pid).LockingWorker? {
          ForceWorkerLock(cfg, initial, m, pid);
        } else {
          ForcePeerLock(cfg, initial, m, pid);
        }
      } else {
        DropSuspect(cfg, initial, m, pid);
      }
      hide Full, Abstract, MachineInv;
    } else {
      assert Act(cfg, m, ForceUnlock(pid)) == m;
      hide Inv;
    }
  }

  lemma ThreeActs(cfg: Config, m: Machine, x: Micro, y: Micro, z: Micro)
    ensures ActAll(cfg, m, [x, y, z]) == Act(cfg, Act(cfg, Act(cfg, m, x), y), z)
  {
    hide Act;
    assert [x, y, z][..2] == [x, y] && [x, y][..1] == [x] && [x][..0] == [];
    assert ActAll(cfg, m, [x]) == Act(cfg, m, x);
    assert ActAll(cfg, m, [x, y]) == Act(cfg, Act(cfg, m, x), y);
  }

  // A lock whose holder died is had within three actions of a waiting process.
  lemma DeadHolderIsRecovered(cfg: Config, m: Machine, pid: Pid)
    requires Acts(m, pid) && pid != NO_PID && Wanted(m, pid).Some?
    requires Wanted(m, pid).value.holder != NO_PID && Wanted(m, pid).value.holder !in m.alive
    ensures var n := ActAll(cfg, m, [Inspect(pid), ForceUnlock(pid), TryLock(pid)]);
      && Acts(n, pid)
      && (At(m, pid).LockingWorker? ==> At(n, pid).ReadingWorker? && Own(n, pid) == Own(m, pid).(holder := pid))
      && (At(m, pid).LockingPeer? ==> At(n, pid).ReadingPeer? && n.peer == m.peer.(holder := pid))
  {
    hide Abstract, DecidedBy, FlippedBy, Enabled;
    ThreeActs(cfg, m, Inspect(pid), ForceUnlock(pid), TryLock(pid));
    hide ActAll;
    var a := Act(cfg, m, Inspect(pid));
    assert a == SetSuspect(m, pid, Some(Wanted(m, pid).value.holder));
    var b := Act(cfg, a, ForceUnlock(pid));
    assert b == SetSuspect(SetWanted(a, pid, Wanted(a, pid).value.(holder := NO_PID)), pid, None);
    assert Wanted(b, pid).value.holder == NO_PID;
  }

  // ---- Steps the protocol sees ----

  // The action is invisible or exactly the protocol step it amounts to.
  ghost predicate Simulates(cfg: Config, m: Machine, n: Machine, s: Option<Step>) {
    Abstract(n) == if s.Some? then Exec(cfg, Abstract(m), s.value) else Abstract(m)
  }

  // An operation that publishes nothing changes only its own process.
  lemma QuietEffect(cfg: Config, w: World, pid: Pid, op: Op, contention: Contention, p: Process)
    requires Enabled(cfg, w, Operate(pid, op, contention))
    requires EffectOf(cfg, w, pid, op, contention) == Effect(p, Nothing)
    ensures Exec(cfg, w, Operate(pid, op, contention)) == Put(w, Seen(p, Reading(op)))
    ensures p.pid == w.processes[pid].pid && p.worker == w.processes[pid].worker
  {
    EffectKeepsName(cfg, w, pid, op, contention);
    hide EffectOf;
  }

  lemma EntersAndReturns(cfg: Config, initial: Record, m: Machine, pid: Pid, op: Op)
    requires Full(cfg, initial, m) && Acts(m, pid) && At(m, pid).Idle?
    requires Enabled(cfg, Abstract(m), Operate(pid, op, Uncontended)) && Ready(op, m.agents[pid].process)
    requires Enter(cfg, op, m.agents[pid].process).Some?
    ensures var n := Entered(cfg, m, pid, op);
      MachineInv(cfg, n) && Abstract(n) == Exec(cfg, Abstract(m), Operate(pid, op, Uncontended))
  {
    AgentKnown(cfg, initial, m, pid);
    var p := m.agents[pid].process;
    var a := Agent(Seen(Enter(cfg, op, p).value, Reading(op)), Idle, None);
    assert Entered(cfg, m, pid, op) == WithAgent(m, pid, a);
    assert Abstract(m).processes[pid] == p;
    assert EffectOf(cfg, Abstract(m), pid, op, Uncontended) == Effect(Enter(cfg, op, p).value, Nothing);
    QuietEffect(cfg, Abstract(m), pid, op, Uncontended, Enter(cfg, op, p).value);
    hide Exec, Full, CellsOk, Enter, Ready, Enabled, EffectOf, Entered, Abstract;
    VisibleStep(cfg, initial, m, pid, a);
  }

  lemma EntersForLocks(cfg: Config, initial: Record, m: Machine, pid: Pid, op: Op)
    requires Full(cfg, initial, m) && Acts(m, pid) && At(m, pid).Idle?
    requires Enabled(cfg, Abstract(m), Operate(pid, op, Uncontended)) && Ready(op, m.agents[pid].process)
    requires Enter(cfg, op, m.agents[pid].process).None?
    ensures var n := Entered(cfg, m, pid, op); MachineInv(cfg, n) && Abstract(n) == Abstract(m)
  {
    var a := Agent(m.agents[pid].process, FirstLock(op), None);
    assert Entered(cfg, m, pid, op) == WithAgent(m, pid, a);
    hide Full, Enter, Ready, Enabled, Entered, Abstract, EffectOf;
    QuietStep(cfg, initial, m, pid, a);
  }

  lemma EntersKeeps(cfg: Config, initial: Record, m: Machine, pid: Pid, op: Op)
    requires Full(cfg, initial, m)
    ensures var n := Act(cfg, m, Enters(pid, op));
      MachineInv(cfg, n) && Simulates(cfg, m, n, StepOf(cfg, m, Enters(pid, op)))
  {
    hide Full, MachineInv, Exec, Entered, Enter, Reads;
    var n := Act(cfg, m, Enters(pid, op));
    var s := StepOf(cfg, m, Enters(pid, op));
    if Acts(m, pid) && At(m, pid).Idle? && Enabled(cfg, Abstract(m), Operate(pid, op, Uncontended)) {
      assert n == Entered(cfg, m, pid, op);
      if Enter(cfg, op, m.agents[pid].process).Some? {
        assert s == Some(Operate(pid, op, Uncontended));
        hide Act, StepOf, Abstract;
        EntersAndReturns(cfg, initial, m, pid, op);
      } else {
        assert s == None;
        hide Act, StepOf, Abstract;
        EntersForLocks(cfg, initial, m, pid, op);
      }
    } else {
      assert n == m && s == None;
      FullInv(cfg, initial, m);
    }
  }

  // Giving up a lock is what the protocol calls contention on that lock.
  lemma BlockedEffect(cfg: Config, w: World, pid: Pid, op: Op, missed: Contention)
    requires OpOk(cfg, w, pid, op) && Blocked(op, w.processes[pid], missed, w.registrations[w.processes[pid].worker])
    ensures Enabled(cfg, w, Operate(pid, op, missed))
    ensures EffectOf(cfg, w, pid, op, missed) == Effect(Contended(op, w.processes[pid]), Nothing)
  {
    hide Blocked, Contended, Critical;
  }

  lemma MissedBlocks(cfg: Config, initial: Record, m: Machine, pid: Pid)
    requires Full(cfg, initial, m) && pid in m.alive && Acts(m, pid)
    requires Wanted(m, pid).Some? && Ready(At(m, pid).op, m.agents[pid].process)
    ensures var op := At(m, pid).op;
      && Enabled(cfg, Abstract(m), Operate(pid, op, Missed(At(m, pid))))
      && EffectOf(cfg, Abstract(m), pid, op, Missed(At(m, pid))) == Effect(Contended(op, m.agents[pid].process), Nothing)
  {
    AgentKnown(cfg, initial, m, pid);
    var op, p, w := At(m, pid).op, m.agents[pid].process, Abstract(m);
    assert w.processes[pid] == p && w.registrations[p.worker] == WordsRegistration(Live(Own(m, pid)));
    hide Full, Contended, WritesOk, CellsOk, Abstract, WordsRegistration, Live, OpOk, Enabled, EffectOf, Ready;
    assert OpOk(cfg, w, pid, op);
    assert Blocked(op, p, Missed(At(m, pid)), w.registrations[p.worker]);
    BlockedEffect(cfg, w, pid, op, Missed(At(m, pid)));
  }

  lemma GivesUp(cfg: Config, initial: Record, m: Machine, pid: Pid)
    requires Full(cfg, initial, m) && pid in m.alive && Acts(m, pid)
    requires Wanted(m, pid).Some? && Ready(At(m, pid).op, m.agents[pid].process)
    ensures var n := GivenUp(m, pid);
      MachineInv(cfg, n) && Abstract(n) == Exec(cfg, Abstract(m), Operate(pid, At(m, pid).op, Missed(At(m, pid))))
  {
    AgentKnown(cfg, initial, m, pid);
    var op, p := At(m, pid).op, m.agents[pid].process;
    assert Abstract(m).processes[pid] == p;
    hide Full, CellsOk, Enter, Ready, Refused, Enabled, OpOk, Contended, Knows, EffectOf, Abstract, WritesOk, Exec;
    MissedBlocks(cfg, initial, m, pid);
    QuietEffect(cfg, Abstract(m), pid, op, Missed(At(m, pid)), Contended(op, p));
    var a := GivenUp(m, pid).agents[pid];
    assert GivenUp(m, pid) == WithAgent(m, pid, a);
    assert HoldsWorker(a.pc) ==> HoldsWorker(At(m, pid));
    hide AgentOk, GivenUp;
    VisibleStep(cfg, initial, m, pid, a);
  }

  lemma GiveUpKeeps(cfg: Config, initial: Record, m: Machine, pid: Pid)
    requires Full(cfg, initial, m)
    ensures var n := Act(cfg, m, GiveUp(pid));
      MachineInv(cfg, n) && Simulates(cfg, m, n, StepOf(cfg, m, GiveUp(pid)))
  {
    hide Full, GivenUp, Abstract, MachineInv, Exec, Ready;
    var n := Act(cfg, m, GiveUp(pid));
    var s := StepOf(cfg, m, GiveUp(pid));
    if Acts(m, pid) && Wanted(m, pid).Some? && Ready(At(m, pid).op, m.agents[pid].process) {
      assert n == GivenUp(m, pid) && s == Some(Operate(pid, At(m, pid).op, Missed(At(m, pid))));
      hide Act, StepOf;
      GivesUp(cfg, initial, m, pid);
    } else {
      assert n == m && s == None;
      FullInv(cfg, initial, m);
    }
  }

  // A complete copy made under the lock decides what the protocol decides.
  lemma DecisionIsEffect(cfg: Config, initial: Record, m: Machine, pid: Pid)
    requires Full(cfg, initial, m) && pid in m.alive && Acts(m, pid) && ReadAll(At(m, pid))
    requires Ready(At(m, pid).op, m.agents[pid].process)
    requires At(m, pid).ReadingWorker? && UsesPeerLock(At(m, pid).op) ==>
      Refused(At(m, pid).op, m.agents[pid].process, WordsRegistration(At(m, pid).buffer))
    ensures var op := At(m, pid).op;
      && Enabled(cfg, Abstract(m), Operate(pid, op, Uncontended))
      && Enter(cfg, op, m.agents[pid].process).None?
      && Decision(cfg, m, pid) == EffectOf(cfg, Abstract(m), pid, op, Uncontended)
  {
    AgentKnown(cfg, initial, m, pid);
    var op := At(m, pid).op;
    hide Full, RegisterEffect, ExitEffect, AnnounceEffect, SubmitEffect, BeginEffect, TakeoverEffect;
    hide WordsRecord, WordsRegistration, Enter;
    match At(m, pid) {
      case ReadingWorker(_, buffer) =>
        assert buffer == Live(Own(m, pid));
        if UsesPeerLock(op) {
          RefusalIgnoresRecord(cfg, op, m.agents[pid].process, Activation(Abstract(m)),
                               WordsRegistration(buffer), WordsRecord([]), Abstract(m).rec);
        }
      case ReadingPeer(_, _, buffer) => assert buffer == Live(m.peer);
    }
  }

  lemma CanDecide(cfg: Config, initial: Record, m: Machine, pid: Pid)
    requires Full(cfg, initial, m) && pid in m.alive && Acts(m, pid) && ReadAll(At(m, pid))
    ensures Ready(At(m, pid).op, m.agents[pid].process) && Enter(cfg, At(m, pid).op, m.agents[pid].process).None?
  {
    AgentKnown(cfg, initial, m, pid);
    hide Full, Enter, Ready, Knows, WritesOk, CellsOk;
    assert Enabled(cfg, Abstract(m), Operate(pid, At(m, pid).op, Uncontended));
  }

  lemma DecideKeeps(cfg: Config, initial: Record, m: Machine, pid: Pid)
    requires Full(cfg, initial, m)
    ensures var n := Act(cfg, m, Decide(pid));
      MachineInv(cfg, n) && Simulates(cfg, m, n, StepOf(cfg, m, Decide(pid)))
  {
    hide Full, MachineInv, Abstract, Decision, Exec, Enter, Ready, WordsRegistration, Refused;
    var n := Act(cfg, m, Decide(pid));
    var s := StepOf(cfg, m, Decide(pid));
    if Acts(m, pid) && ReadAll(At(m, pid)) {
      assert n == DecidedBy(cfg, m, pid);
      CanDecide(cfg, initial, m, pid);
      var op := At(m, pid).op;
      if At(m, pid).ReadingWorker? && UsesPeerLock(op) {
        if Refused(op, m.agents[pid].process, WordsRegistration(At(m, pid).buffer)) {
          assert s == Some(Operate(pid, op, Uncontended));
          hide Act, StepOf, DecidedBy;
          RefusesEarly(cfg, initial, m, pid);
        } else {
          assert s == None;
          hide Act, StepOf, DecidedBy;
          GoesToPeer(cfg, initial, m, pid);
        }
      } else if Decision(cfg, m, pid).publication.Nothing? {
        assert s == Some(Operate(pid, op, Uncontended));
        hide Act, StepOf, DecidedBy;
        Finishes(cfg, initial, m, pid);
      } else {
        assert s == None;
        hide Act, StepOf, DecidedBy;
        StartsWriting(cfg, initial, m, pid);
      }
    } else {
      assert n == m && s == None;
      FullInv(cfg, initial, m);
    }
  }

  lemma GoesToPeer(cfg: Config, initial: Record, m: Machine, pid: Pid)
    requires Full(cfg, initial, m) && pid in m.alive && Acts(m, pid) && ReadAll(At(m, pid))
    requires At(m, pid).ReadingWorker? && UsesPeerLock(At(m, pid).op)
    requires Ready(At(m, pid).op, m.agents[pid].process) && Enter(cfg, At(m, pid).op, m.agents[pid].process).None?
    requires !Refused(At(m, pid).op, m.agents[pid].process, WordsRegistration(At(m, pid).buffer))
    ensures MachineInv(cfg, DecidedBy(cfg, m, pid)) && Abstract(DecidedBy(cfg, m, pid)) == Abstract(m)
  {
    AgentKnown(cfg, initial, m, pid);
    assert At(m, pid).buffer == Live(Own(m, pid));
    hide Full, CellsOk, Enter, Ready, Enabled, WordsRecord, WordsRegistration, EffectOf;
    QuietStep(cfg, initial, m, pid, DecidedBy(cfg, m, pid).agents[pid]);
  }

  // The registration already refuses: the peer lock is never tried.
  lemma RefusesEarly(cfg: Config, initial: Record, m: Machine, pid: Pid)
    requires Full(cfg, initial, m) && pid in m.alive && Acts(m, pid) && ReadAll(At(m, pid))
    requires At(m, pid).ReadingWorker? && UsesPeerLock(At(m, pid).op)
    requires Ready(At(m, pid).op, m.agents[pid].process) && Enter(cfg, At(m, pid).op, m.agents[pid].process).None?
    requires Refused(At(m, pid).op, m.agents[pid].process, WordsRegistration(At(m, pid).buffer))
    ensures var n := DecidedBy(cfg, m, pid);
      MachineInv(cfg, n) && Abstract(n) == Exec(cfg, Abstract(m), Operate(pid, At(m, pid).op, Uncontended))
  {
    var op := At(m, pid).op;
    var a := m.agents[pid].(pc := Releasing(Seen(Decision(cfg, m, pid).process, Reading(op)), false, true));
    assert DecidedBy(cfg, m, pid) == WithAgent(m, pid, a);
    AgentKnown(cfg, initial, m, pid);
    DecisionIsEffect(cfg, initial, m, pid);
    assert Abstract(m).processes[pid] == m.agents[pid].process;
    RefusalIgnoresRecord(cfg, op, m.agents[pid].process, Activation(Abstract(m)),
                         WordsRegistration(At(m, pid).buffer), WordsRecord([]), WordsRecord([]));
    assert Decision(cfg, m, pid).publication.Nothing?;
    QuietEffect(cfg, Abstract(m), pid, op, Uncontended, Decision(cfg, m, pid).process);
    hide Exec, Full, CellsOk, Enter, Ready, Enabled, EffectOf, Decision, Knows, DecidedBy, Abstract, WritesOk;
    VisibleStep(cfg, initial, m, pid, a);
  }

  lemma Finishes(cfg: Config, initial: Record, m: Machine, pid: Pid)
    requires Full(cfg, initial, m) && pid in m.alive && Acts(m, pid) && ReadAll(At(m, pid))
    requires At(m, pid).ReadingWorker? ==> !UsesPeerLock(At(m, pid).op)
    requires Ready(At(m, pid).op, m.agents[pid].process) && Enter(cfg, At(m, pid).op, m.agents[pid].process).None?
    requires Decision(cfg, m, pid).publication.Nothing?
    ensures var n := DecidedBy(cfg, m, pid);
      MachineInv(cfg, n) && Abstract(n) == Exec(cfg, Abstract(m), Operate(pid, At(m, pid).op, Uncontended))
  {
    var op := At(m, pid).op;
    var next := Seen(Decision(cfg, m, pid).process, Reading(op));
    var a := m.agents[pid].(pc := Releasing(next, UsesPeerLock(op), UsesWorkerLock(op)));
    assert DecidedBy(cfg, m, pid) == WithAgent(m, pid, a);
    AgentKnown(cfg, initial, m, pid);
    DecisionIsEffect(cfg, initial, m, pid);
    QuietEffect(cfg, Abstract(m), pid, op, Uncontended, Decision(cfg, m, pid).process);
    assert Abstract(m).processes[pid] == m.agents[pid].process;
    hide Exec, Full, CellsOk, Enter, Ready, Enabled, EffectOf, Decision, Knows, DecidedBy, Abstract, WritesOk;
    VisibleStep(cfg, initial, m, pid, a);
  }

  lemma BeginsToWrite(cfg: Config, m: Machine, pid: Pid, a: Agent)
    requires Acts(m, pid) && ReadAll(At(m, pid)) && m.agents[pid].process.pid == pid
    requires a.process == m.agents[pid].process && a.pc.Writing? && a.pc.op == At(m, pid).op
    requires Abstract(WithAgent(m, pid, a)) == Abstract(m)
    requires Enabled(cfg, Abstract(m), Operate(pid, a.pc.op, Uncontended))
    requires a.pc.effect == EffectOf(cfg, Abstract(m), pid, a.pc.op, Uncontended) && !a.pc.effect.publication.Nothing?
    requires a.pc.words == PublicationWords(a.pc.effect.publication) && a.pc.copied == {}
    requires a.pc.effect.publication.ToWorker? ==> !UsesPeerLock(a.pc.op)
    requires a.pc.effect.publication.ToPeer? ==> UsesPeerLock(a.pc.op) && UsesWorkerLock(a.pc.op)
    ensures Consistent(cfg, WithAgent(m, pid, a), pid)
  {
    hide Abstract, Enabled, EffectOf, PublicationWords;
  }

  // Only claims, commits and announcements write the peer record, under both locks.
  lemma PublishesUnderLocks(cfg: Config, w: World, pid: Pid, op: Op)
    requires Enabled(cfg, w, Operate(pid, op, Uncontended))
    ensures var e := EffectOf(cfg, w, pid, op, Uncontended);
      && (e.publication.ToWorker? ==> !UsesPeerLock(op))
      && (e.publication.ToPeer? ==> UsesPeerLock(op) && UsesWorkerLock(op))
  {
    hide Apply;
  }

  lemma StartsWriting(cfg: Config, initial: Record, m: Machine, pid: Pid)
    requires Full(cfg, initial, m) && pid in m.alive && Acts(m, pid) && ReadAll(At(m, pid))
    requires At(m, pid).ReadingWorker? ==> !UsesPeerLock(At(m, pid).op)
    requires Ready(At(m, pid).op, m.agents[pid].process) && Enter(cfg, At(m, pid).op, m.agents[pid].process).None?
    requires !Decision(cfg, m, pid).publication.Nothing?
    ensures MachineInv(cfg, DecidedBy(cfg, m, pid)) && Abstract(DecidedBy(cfg, m, pid)) == Abstract(m)
  {
    var op := At(m, pid).op;
    var a := m.agents[pid].(pc := Writing(op, Decision(cfg, m, pid), PublicationWords(Decision(cfg, m, pid).publication), {}));
    assert DecidedBy(cfg, m, pid) == WithAgent(m, pid, a);
    AgentKnown(cfg, initial, m, pid);
    DecisionIsEffect(cfg, initial, m, pid);
    SameAbstraction(m, pid, a);
    hide Full, CellsOk, Enter, Ready, Refused, Enabled, WordsRecord, WordsRegistration, EffectOf, Decision, Abstract, DecidedBy, PublicationWords;
    PublishesUnderLocks(cfg, Abstract(m), pid, op);
    BeginsToWrite(cfg, m, pid, a);
    hide Consistent, Knows, WritesOk;
    QuietStep(cfg, initial, m, pid, a);
  }

  // ---- Copying and flipping ----

  // The process works on a record whose lock it holds; nobody else alive relies on it.
  lemma OwnCellOthers(cfg: Config, initial: Record, m: Machine, u: Machine, pid: Pid, a: Agent)
    requires Full(cfg, initial, m) && pid in m.alive && Acts(m, pid) && HoldsWorker(At(m, pid))
    requires u == m.(workers := u.workers, issued := u.issued) && |u.issued| == |m.issued|
    requires exists c: Cell {:trigger SetOwn(m, pid, c)} :: u.workers == SetOwn(m, pid, c).workers
    ensures forall q :: q in m.alive && q != pid ==> Acts(m, q) && Undisturbed(m, WithAgent(u, pid, a), q)
  {
    AgentKnown(cfg, initial, m, pid);
    forall q | q in m.alive && q != pid ensures Acts(m, q) && Undisturbed(m, WithAgent(u, pid, a), q) {
      AgentKnown(cfg, initial, m, q);
      hide Full, CellsOk, WordsRecord, WordsRegistration, Knows, Enabled, Enter, WritesOk;
    }
  }

  lemma PeerCellOthers(cfg: Config, initial: Record, m: Machine, u: Machine, pid: Pid, a: Agent)
    requires Full(cfg, initial, m) && pid in m.alive && Acts(m, pid) && HoldsPeer(At(m, pid))
    requires u == m.(peer := u.peer, claims := u.claims, commits := u.commits)
    ensures forall q :: q in m.alive && q != pid ==> Acts(m, q) && Undisturbed(m, WithAgent(u, pid, a), q)
  {
    AgentKnown(cfg, initial, m, pid);
    forall q | q in m.alive && q != pid ensures Acts(m, q) && Undisturbed(m, WithAgent(u, pid, a), q) {
      AgentKnown(cfg, initial, m, q);
      hide Full, CellsOk, WordsRecord, WordsRegistration, Knows, Enabled, Enter, WritesOk;
    }
  }

  lemma SpareInvisible(c: Cell, k: nat, word: U64)
    requires k < |Spare(c)|
    ensures var d := WithSpare(c, k, word);
      && Live(d) == Live(c) && d.published == c.published && d.holder == c.holder
      && |d.slot0| == |c.slot0| && |d.slot1| == |c.slot1|
      && Spare(d) == Spare(c)[k := word]
  {
  }

  // The writer's own account after one more word.
  lemma CopyAccount(c: Cell, words: Words, copied: set<nat>, k: nat)
    requires WritesTo(c, words, copied) && k < |words| && k < |Spare(c)|
    ensures WritesTo(WithSpare(c, k, words[k]), words, copied + {k})
  {
    SpareInvisible(c, k, words[k]);
    hide Spare, WithSpare;
  }

  lemma OwnCells(cfg: Config, m: Machine, pid: Pid, c: Cell)
    requires CellsOk(cfg, m) && Acts(m, pid) && CellOk(c, REGISTRATION_WORDS) && c.holder == Own(m, pid).holder
    ensures CellsOk(cfg, SetOwn(m, pid, c))
  {
    hide WordsRecord, CellOk;
  }

  lemma PeerCells(cfg: Config, m: Machine, c: Cell)
    requires CellsOk(cfg, m) && CellOk(c, RECORD_WORDS) && c.holder == m.peer.holder
    requires RoutedDown(c) == WordsRecord(Live(c)).health.down
    ensures CellsOk(cfg, m.(peer := c))
  {
    hide WordsRecord, CellOk, Live, RoutedDown;
  }

  lemma SameRegistrations(m: Machine, pid: Pid, c: Cell)
    requires Acts(m, pid) && Live(c) == Live(Own(m, pid))
    ensures Abstract(SetOwn(m, pid, c)) == Abstract(m)
  {
    hide WordsRegistration, WordsRecord, Live;
    assert Registrations(SetOwn(m, pid, c).workers) == Registrations(m.workers);
  }

  lemma SameRecord(m: Machine, c: Cell)
    requires Live(c) == Live(m.peer)
    ensures Abstract(m.(peer := c)) == Abstract(m)
  {
    hide WordsRegistration, WordsRecord, Live, Registrations;
  }

  lemma CopyOwn(cfg: Config, initial: Record, m: Machine, pid: Pid, k: nat)
    requires Full(cfg, initial, m) && pid in m.alive && Acts(m, pid) && CopyingTo(m, pid, k)
    requires At(m, pid).effect.publication.ToWorker?
    ensures MachineInv(cfg, Copied(m, pid, k)) && Abstract(Copied(m, pid, k)) == Abstract(m)
  {
    var pc := At(m, pid);
    var c := WithSpare(Own(m, pid), k, pc.words[k]);
    var u := SetOwn(m, pid, c);
    var a := m.agents[pid].(pc := pc.(copied := pc.copied + {k}));
    assert Copied(m, pid, k) == WithAgent(u, pid, a);
    hide Copied;
    AgentKnown(cfg, initial, m, pid);
    CopyAccount(Own(m, pid), pc.words, pc.copied, k);
    SpareInvisible(Own(m, pid), k, pc.words[k]);
    OwnCells(cfg, m, pid, c);
    SameRegistrations(m, pid, c);
    SameAbstraction(u, pid, a);
    OwnCellOthers(cfg, initial, m, u, pid, a);
    hide OpOk, Ready, Refused, Full, CellsOk, CellOk, Abstract, Enabled, Enter, EffectOf, Undisturbed, Live, Spare, WithSpare, WritesTo;
    assert AgentOk(cfg, WithAgent(u, pid, a), pid);
    hide AgentOk;
    Assemble(cfg, initial, m, u, pid, a);
  }

  lemma CopyPeer(cfg: Config, initial: Record, m: Machine, pid: Pid, k: nat)
    requires Full(cfg, initial, m) && pid in m.alive && Acts(m, pid) && CopyingTo(m, pid, k)
    requires At(m, pid).effect.publication.ToPeer?
    ensures MachineInv(cfg, Copied(m, pid, k)) && Abstract(Copied(m, pid, k)) == Abstract(m)
  {
    var pc := At(m, pid);
    var c := WithSpare(m.peer, k, pc.words[k]);
    var u := m.(peer := c);
    var a := m.agents[pid].(pc := pc.(copied := pc.copied + {k}));
    assert Copied(m, pid, k) == WithAgent(u, pid, a);
    hide Copied;
    AgentKnown(cfg, initial, m, pid);
    CopyAccount(m.peer, pc.words, pc.copied, k);
    SpareInvisible(m.peer, k, pc.words[k]);
    PeerCells(cfg, m, c);
    SameRecord(m, c);
    SameAbstraction(u, pid, a);
    PeerCellOthers(cfg, initial, m, u, pid, a);
    hide OpOk, Ready, Refused, Full, CellsOk, CellOk, Abstract, Enabled, Enter, EffectOf, Undisturbed, Live, Spare, WithSpare, WritesTo;
    assert AgentOk(cfg, WithAgent(u, pid, a), pid);
    hide AgentOk;
    Assemble(cfg, initial, m, u, pid, a);
  }

  lemma CopyKeeps(cfg: Config, initial: Record, m: Machine, pid: Pid, k: nat)
    requires Full(cfg, initial, m)
    ensures var n := Act(cfg, m, Copy(pid, k)); MachineInv(cfg, n) && Abstract(n) == Abstract(m)
  {
    hide Full, Copied, Abstract, MachineInv, Spare, Own;
    var n := Act(cfg, m, Copy(pid, k));
    if Acts(m, pid) && CopyingTo(m, pid, k) {
      assert n == Copied(m, pid, k);
      hide Act, CopyingTo;
      assert !At(m, pid).effect.publication.Nothing? by { WriterPublishes(cfg, initial, m, pid); }
      if At(m, pid).effect.publication.ToWorker? {
        CopyOwn(cfg, initial, m, pid, k);
      } else {
        CopyPeer(cfg, initial, m, pid, k);
      }
    } else {
      assert n == m;
      FullInv(cfg, initial, m);
    }
  }

  lemma FullInv(cfg: Config, initial: Record, m: Machine)
    requires Full(cfg, initial, m)
    ensures MachineInv(cfg, m)
  {
    hide Inv, MachineInv;
  }

  lemma WriterPublishes(cfg: Config, initial: Record, m: Machine, pid: Pid)
    requires Full(cfg, initial, m) && pid in m.alive && Acts(m, pid) && At(m, pid).Writing?
    ensures !At(m, pid).effect.publication.Nothing?
  {
    AgentKnown(cfg, initial, m, pid);
    hide Full, Abstract;
  }

  // When every word is copied the spare slot holds exactly the publication.
  lemma SpareComplete(c: Cell, words: Words, copied: set<nat>)
    requires WritesTo(c, words, copied) && |Spare(c)| == |words|
    requires forall k :: 0 <= k < |words| ==> k in copied
    ensures Spare(c) == words
  {
    forall k | 0 <= k < |words| ensures Spare(c)[k] == words[k] {
      assert k in copied;
    }
  }

  // The published word now shows the complete new registration ...
  lemma FlippedRegistration(cfg: Config, m: Machine, pid: Pid, registration: Registration, copied: set<nat>)
    requires Acts(m, pid) && CellOk(Own(m, pid), REGISTRATION_WORDS)
    requires WritesTo(Own(m, pid), RegistrationWords(registration), copied)
    requires forall k :: 0 <= k < REGISTRATION_WORDS ==> k in copied
    ensures var c := Flipped(Own(m, pid), false);
      && CellOk(c, REGISTRATION_WORDS) && c.holder == Own(m, pid).holder
      && Registrations(SetOwn(m, pid, c).workers)
         == Registrations(m.workers)[m.agents[pid].process.worker := registration]
  {
    SpareComplete(Own(m, pid), RegistrationWords(registration), copied);
    FlipShows(Own(m, pid), false);
    RegistrationRoundTrip(registration);
    hide WordsRegistration, RegistrationWords, Live;
  }

  // ... or the complete new record, its down state included.
  lemma FlippedRecord(c: Cell, rec: Record, copied: set<nat>)
    requires CellOk(c, RECORD_WORDS) && WritesTo(c, RecordWords(rec), copied)
    requires forall k :: 0 <= k < RECORD_WORDS ==> k in copied
    ensures var d := Flipped(c, rec.health.down);
      && CellOk(d, RECORD_WORDS) && d.holder == c.holder
      && WordsRecord(Live(d)) == rec && RoutedDown(d) == rec.health.down
  {
    SpareComplete(c, RecordWords(rec), copied);
    FlipShows(c, rec.health.down);
    RecordRoundTrip(rec);
    hide WordsRecord, RecordWords;
  }

  lemma FlipOwnEffect(cfg: Config, m: Machine, pid: Pid, u: Machine)
    requires Acts(m, pid) && At(m, pid).Writing? && WritesOk(cfg, m, pid) && |m.issued| == |m.workers|
    requires m.agents[pid].process.pid == pid && At(m, pid).effect.publication.ToWorker?
    requires u == FlippedBy(m, pid).(agents := m.agents)
    requires Registrations(u.workers) == Registrations(m.workers)[
      m.agents[pid].process.worker := At(m, pid).effect.publication.registration]
    ensures Put(Abstract(u), Seen(At(m, pid).effect.process, Reading(At(m, pid).op)))
      == Exec(cfg, Abstract(m), Operate(pid, At(m, pid).op, Uncontended))
  {
    hide WordsRecord, Registrations, EffectOf, Enabled, Flipped, WritesTo;
  }

  lemma FlipPeerEffect(cfg: Config, m: Machine, pid: Pid, u: Machine)
    requires Acts(m, pid) && At(m, pid).Writing? && WritesOk(cfg, m, pid)
    requires m.agents[pid].process.pid == pid && At(m, pid).effect.publication.ToPeer?
    requires u == FlippedBy(m, pid).(agents := m.agents)
    requires WordsRecord(Live(u.peer)) == At(m, pid).effect.publication.record
    ensures Put(Abstract(u), Seen(At(m, pid).effect.process, Reading(At(m, pid).op)))
      == Exec(cfg, Abstract(m), Operate(pid, At(m, pid).op, Uncontended))
  {
    hide WordsRecord, Registrations, EffectOf, Enabled, Flipped, WritesTo;
  }

  lemma ReleasingOk(cfg: Config, m: Machine, pid: Pid)
    requires Acts(m, pid) && At(m, pid).Releasing?
    requires At(m, pid).worker ==> Own(m, pid).holder == pid
    requires At(m, pid).peer ==> m.peer.holder == pid
    requires var s := m.agents[pid].suspect; s.Some? ==> s.value in m.agents && s.value !in m.alive
    ensures AgentOk(cfg, m, pid)
  {
    hide Enabled, Enter, WritesOk;
  }

  lemma FlipOwn(cfg: Config, initial: Record, m: Machine, pid: Pid)
    requires Full(cfg, initial, m) && pid in m.alive && Acts(m, pid) && CopiedAll(At(m, pid))
    requires At(m, pid).effect.publication.ToWorker?
    ensures var n := FlippedBy(m, pid);
      MachineInv(cfg, n) && Abstract(n) == Exec(cfg, Abstract(m), Operate(pid, At(m, pid).op, Uncontended))
  {
    var pc := At(m, pid);
    var p := m.agents[pid].process;
    var registration := pc.effect.publication.registration;
    AgentKnown(cfg, initial, m, pid);
    FlippedRegistration(cfg, m, pid, registration, pc.copied);
    EffectKeepsName(cfg, Abstract(m), pid, pc.op, Uncontended);
    var c := Flipped(Own(m, pid), false);
    var u := SetOwn(m, pid, c).(issued := FlippedBy(m, pid).issued);
    var a := FlippedBy(m, pid).agents[pid];
    assert FlippedBy(m, pid) == WithAgent(u, pid, a);
    OwnCells(cfg, m, pid, c);
    assert CellsOk(cfg, u);
    NewAbstraction(u, pid, a);
    OwnCellOthers(cfg, initial, m, u, pid, a);
    FlipOwnEffect(cfg, m, pid, u);
    hide Full, CellsOk, Abstract, Enter, EffectOf, Undisturbed, Enabled, Exec, Flipped, Knows, WritesOk;
    ReleasingOk(cfg, WithAgent(u, pid, a), pid);
    hide AgentOk, FlippedBy;
    Assemble(cfg, initial, m, u, pid, a);
  }

  lemma FlipPeer(cfg: Config, initial: Record, m: Machine, pid: Pid)
    requires Full(cfg, initial, m) && pid in m.alive && Acts(m, pid) && CopiedAll(At(m, pid))
    requires At(m, pid).effect.publication.ToPeer?
    ensures var n := FlippedBy(m, pid);
      MachineInv(cfg, n) && Abstract(n) == Exec(cfg, Abstract(m), Operate(pid, At(m, pid).op, Uncontended))
  {
    var pc := At(m, pid);
    var rec := pc.effect.publication.record;
    AgentKnown(cfg, initial, m, pid);
    FlippedRecord(m.peer, rec, pc.copied);
    EffectKeepsName(cfg, Abstract(m), pid, pc.op, Uncontended);
    var c := Flipped(m.peer, rec.health.down);
    var n := FlippedBy(m, pid);
    var u := m.(peer := c, claims := n.claims, commits := n.commits);
    var a := n.agents[pid];
    assert n == WithAgent(u, pid, a);
    PeerCells(cfg, m, c);
    assert CellsOk(cfg, u);
    NewAbstraction(u, pid, a);
    PeerCellOthers(cfg, initial, m, u, pid, a);
    FlipPeerEffect(cfg, m, pid, u);
    hide Full, CellsOk, Abstract, Enter, EffectOf, Undisturbed, Enabled, Exec, Flipped, Knows, WritesOk;
    ReleasingOk(cfg, WithAgent(u, pid, a), pid);
    hide AgentOk, FlippedBy;
    Assemble(cfg, initial, m, u, pid, a);
  }

  lemma FlipKeeps(cfg: Config, initial: Record, m: Machine, pid: Pid)
    requires Full(cfg, initial, m)
    ensures var n := Act(cfg, m, Flip(pid));
      MachineInv(cfg, n) && Simulates(cfg, m, n, StepOf(cfg, m, Flip(pid)))
  {
    hide Full, Copied, FlippedBy, Abstract, MachineInv, Exec;
    var n := Act(cfg, m, Flip(pid));
    var s := StepOf(cfg, m, Flip(pid));
    if Acts(m, pid) && CopiedAll(At(m, pid)) {
      assert n == FlippedBy(m, pid) && s == Some(Operate(pid, At(m, pid).op, Uncontended));
      hide Act, StepOf;
      WriterPublishes(cfg, initial, m, pid);
      if At(m, pid).effect.publication.ToWorker? {
        FlipOwn(cfg, initial, m, pid);
      } else {
        FlipPeer(cfg, initial, m, pid);
      }
    } else {
      assert n == m && s == None;
      FullInv(cfg, initial, m);
    }
  }

  lemma ReleasePeer(cfg: Config, initial: Record, m: Machine, pid: Pid)
    requires Full(cfg, initial, m) && pid in m.alive && Acts(m, pid) && At(m, pid).Releasing? && At(m, pid).peer
    ensures MachineInv(cfg, Unlocked(m, pid)) && Abstract(Unlocked(m, pid)) == Abstract(m)
  {
    var a := m.agents[pid].(pc := At(m, pid).(peer := false));
    assert Unlocked(m, pid) == WithAgent(WithPeerHolder(m, NO_PID), pid, a);
    AgentKnown(cfg, initial, m, pid);
    hide Full, CellsOk, Unlocked;
    PeerLockStep(cfg, initial, m, pid, NO_PID, a);
  }

  lemma ReleaseOwn(cfg: Config, initial: Record, m: Machine, pid: Pid)
    requires Full(cfg, initial, m) && pid in m.alive && Acts(m, pid)
    requires At(m, pid).Releasing? && !At(m, pid).peer && At(m, pid).worker
    ensures MachineInv(cfg, Unlocked(m, pid)) && Abstract(Unlocked(m, pid)) == Abstract(m)
  {
    var a := m.agents[pid].(pc := At(m, pid).(worker := false));
    assert Unlocked(m, pid) == WithAgent(WithOwnHolder(m, pid, NO_PID), pid, a);
    AgentKnown(cfg, initial, m, pid);
    hide Full, CellsOk, Unlocked;
    OwnLockStep(cfg, initial, m, pid, NO_PID, a);
  }

  lemma Returns(cfg: Config, initial: Record, m: Machine, pid: Pid)
    requires Full(cfg, initial, m) && pid in m.alive && Acts(m, pid)
    requires At(m, pid).Releasing? && !At(m, pid).peer && !At(m, pid).worker
    ensures MachineInv(cfg, Unlocked(m, pid)) && Abstract(Unlocked(m, pid)) == Abstract(m)
  {
    var a := Agent(At(m, pid).next, Idle, None);
    AgentKnown(cfg, initial, m, pid);
    SameAbstraction(m, pid, a);
    hide Full, CellsOk, Abstract;
    VisibleStep(cfg, initial, m, pid, a);
  }

  lemma UnlockKeeps(cfg: Config, initial: Record, m: Machine, pid: Pid)
    requires Full(cfg, initial, m)
    ensures var n := Act(cfg, m, Unlock(pid)); MachineInv(cfg, n) && Abstract(n) == Abstract(m)
  {
    var n := Act(cfg, m, Unlock(pid));
    if Acts(m, pid) && At(m, pid).Releasing? {
      assert n == Unlocked(m, pid);
      hide Act, Unlocked, Abstract, MachineInv;
      if At(m, pid).peer {
        ReleasePeer(cfg, initial, m, pid);
      } else if At(m, pid).worker {
        ReleaseOwn(cfg, initial, m, pid);
      } else {
        Returns(cfg, initial, m, pid);
      }
    } else {
      assert n == m;
      hide Inv, Act;
    }
  }

  // ---- The environment and purely local steps ----

  lemma TickKeeps(cfg: Config, initial: Record, m: Machine, to: U64)
    requires Full(cfg, initial, m)
    ensures var n := Act(cfg, m, Outside(Tick(to)));
      MachineInv(cfg, n) && Abstract(n) == Exec(cfg, Abstract(m), Tick(to))
  {
    var n := Act(cfg, m, Outside(Tick(to)));
    hide Inv, AgentOk, WordsRecord;
    forall q | q in m.alive && q != NO_PID ensures Acts(m, q) && Undisturbed(m, n, q) {
      assert q in m.agents.Keys;
    }
    OthersKeep(cfg, initial, m, n, NO_PID);
  }

  lemma CrashKeeps(cfg: Config, initial: Record, m: Machine, pid: Pid)
    requires Full(cfg, initial, m)
    ensures var n := Act(cfg, m, Outside(Crash(pid)));
      MachineInv(cfg, n) && Abstract(n) == Exec(cfg, Abstract(m), Crash(pid))
  {
    var n := Act(cfg, m, Outside(Crash(pid)));
    hide Inv, AgentOk, WordsRecord;
    if Alive(Abstract(m), pid) {
      forall q | q in n.alive ensures q in m.alive && Acts(m, q) && Undisturbed(m, n, q) {
        assert q in m.agents.Keys;
      }
      OthersKeep(cfg, initial, m, n, pid);
    } else {
      assert n == m;
    }
  }

  lemma Spawns(cfg: Config, initial: Record, m: Machine, pid: Pid, a: Agent)
    requires Full(cfg, initial, m) && pid != NO_PID && pid !in m.agents
    requires a.pc.Idle? && a.suspect.None? && NameOk(cfg, pid, a)
    ensures MachineInv(cfg, m.(agents := m.agents[pid := a], alive := m.alive + {pid}))
  {
    hide Inv, WordsRecord, AgentOk;
    var n := m.(agents := m.agents[pid := a], alive := m.alive + {pid});
    forall q | q in m.alive ensures q != pid && Acts(m, q) && Undisturbed(m, n, q) {
      assert q in m.agents.Keys;
    }
    NewAgentOk(cfg, n, pid);
    hide Undisturbed;
    OthersKeep(cfg, initial, m, n, pid);
  }

  lemma SpawnKeeps(cfg: Config, initial: Record, m: Machine, pid: Pid, worker: U64)
    requires Full(cfg, initial, m)
    ensures var s := Spawn(pid, worker);
      var n := Act(cfg, m, Outside(s));
      MachineInv(cfg, n) && Simulates(cfg, m, n, StepOf(cfg, m, Outside(s)))
  {
    hide Full, MachineInv, WordsRecord, Ready, Enter, EffectOf;
    var s := Spawn(pid, worker);
    var n := Act(cfg, m, Outside(s));
    FullInv(cfg, initial, m);
    if OutsideAllowed(cfg, m, s) {
      var a := Agent(NewProcess(pid, worker, m.clock), Idle, None);
      assert n == m.(agents := m.agents[pid := a], alive := m.alive + {pid});
      FullShape(cfg, initial, m);
      Spawns(cfg, initial, m, pid, a);
    } else {
      assert n == m;
    }
  }

  lemma FullShape(cfg: Config, initial: Record, m: Machine)
    requires Full(cfg, initial, m)
    ensures |m.workers| == cfg.workers
  {
  }

  lemma NewAgentOk(cfg: Config, m: Machine, pid: Pid)
    requires Acts(m, pid) && At(m, pid).Idle? && m.agents[pid].suspect.None?
    ensures AgentOk(cfg, m, pid)
  {
    hide Enabled, Enter, WritesOk;
  }

  predicate LocalStep(s: Step) { s.Activate? || s.StartTimer? || s.Prepare? || s.Fix? || s.Quit? }

  lemma LocalKeepsName(cfg: Config, w: World, s: Step)
    requires LocalStep(s) && Enabled(cfg, w, s) && w.processes[s.pid].pid == s.pid
    ensures var v := Exec(cfg, w, s);
      && s.pid in v.processes && v.processes[s.pid].pid == s.pid
      && v.processes[s.pid].worker == w.processes[s.pid].worker
      && v == Put(w, v.processes[s.pid]).(activatedAt := v.activatedAt)
      && (w.activatedAt.Some? ==> v.activatedAt == w.activatedAt)
  {
  }

  lemma ActivationOthers(cfg: Config, initial: Record, m: Machine, u: Machine, pid: Pid, a: Agent)
    requires Full(cfg, initial, m) && pid in m.agents
    requires u == m.(activatedAt := u.activatedAt) && (m.activatedAt.Some? ==> u.activatedAt == m.activatedAt)
    ensures forall q :: q in m.alive && q != pid ==> Acts(m, q) && Undisturbed(m, WithAgent(u, pid, a), q)
  {
    hide Inv, AgentOk, HoldsWorker, HoldsPeer;
    forall q | q in m.alive && q != pid ensures Acts(m, q) && Undisturbed(m, WithAgent(u, pid, a), q) {
      assert q in m.agents.Keys;
    }
  }

  lemma LocalKeeps(cfg: Config, initial: Record, m: Machine, s: Step)
    requires Full(cfg, initial, m) && LocalStep(s)
    ensures var n := Act(cfg, m, Outside(s));
      MachineInv(cfg, n) && Simulates(cfg, m, n, StepOf(cfg, m, Outside(s)))
  {
    var n := Act(cfg, m, Outside(s));
    var t := StepOf(cfg, m, Outside(s));
    if OutsideAllowed(cfg, m, s) {
      var v := Exec(cfg, Abstract(m), s);
      AgentKnown(cfg, initial, m, s.pid);
      assert Abstract(m).processes[s.pid] == m.agents[s.pid].process;
      LocalKeepsName(cfg, Abstract(m), s);
      var a := Agent(v.processes[s.pid], Idle, None);
      var u := m.(activatedAt := v.activatedAt);
      assert n == WithAgent(u, s.pid, a) && t == Some(s) by { hide Exec, Enabled; }
      hide Exec, Act, StepOf, Enabled;
      NewAbstraction(u, s.pid, a);
      assert Abstract(u) == Abstract(m).(activatedAt := v.activatedAt);
      assert CellsOk(cfg, u) by { hide WordsRecord; }
      ActivationOthers(cfg, initial, m, u, s.pid, a);
      hide Full, CellsOk, AgentOk, Undisturbed, Abstract, Shown;
      NewAgentOk(cfg, WithAgent(u, s.pid, a), s.pid);
      Assemble(cfg, initial, m, u, s.pid, a);
    } else {
      assert n == m && t == None;
      FullInv(cfg, initial, m);
    }
  }

  // ---- Every run ----

  lemma ActKeeps(cfg: Config, initial: Record, m: Machine, a: Micro)
    requires cfg.Valid() && Full(cfg, initial, m)
    ensures var n := Act(cfg, m, a);
      Full(cfg, initial, n) && Simulates(cfg, m, n, StepOf(cfg, m, a))
  {
    var n := Act(cfg, m, a);
    hide Inv, MachineInv, Exec, Abstract;
    match a {
      case Outside(s) =>
        match s {
          case Tick(to) => TickKeeps(cfg, initial, m, to);
          case Spawn(pid, worker) => SpawnKeeps(cfg, initial, m, pid, worker);
          case Crash(pid) => CrashKeeps(cfg, initial, m, pid);
          case Operate(_, _, _) => assert n == m; FullInv(cfg, initial, m);
          case _ => LocalKeeps(cfg, initial, m, s);
        }
        DisabledDoesNothing(cfg, Abstract(m), s);
      case Enters(pid, op) => EntersKeeps(cfg, initial, m, pid, op);
      case TryLock(pid) => TryLockKeeps(cfg, initial, m, pid);
      case Inspect(pid) => InspectKeeps(cfg, initial, m, pid);
      case ForceUnlock(pid) => ForceUnlockKeeps(cfg, initial, m, pid);
      case GiveUp(pid) => GiveUpKeeps(cfg, initial, m, pid);
      case Read(pid) => ReadKeeps(cfg, initial, m, pid);
      case Sample(pid, clock, quit) => SampleKeeps(cfg, initial, m, pid, clock, quit);
      case Decide(pid) => DecideKeeps(cfg, initial, m, pid);
      case Copy(pid, k) => CopyKeeps(cfg, initial, m, pid, k);
      case Flip(pid) => FlipKeeps(cfg, initial, m, pid);
      case Unlock(pid) => UnlockKeeps(cfg, initial, m, pid);
    }
    assert MachineInv(cfg, n) && Simulates(cfg, m, n, StepOf(cfg, m, a));
    hide Act, StepOf;
    if StepOf(cfg, m, a).Some? {
      StepKeeps(cfg, initial, Abstract(m), StepOf(cfg, m, a).value);
    }
  }

  lemma DisabledDoesNothing(cfg: Config, w: World, s: Step)
    ensures !Enabled(cfg, w, s) ==> Exec(cfg, w, s) == w
  {
  }

  // Memory as zone initialization leaves it, with no process running.
  ghost predicate MachineStart(cfg: Config, m: Machine) {
    && m.clock <= MS_MAX && m.activatedAt == None && m.agents == map[] && m.alive == {}
    && m.claims == [] && m.commits == [] && m.issued == seq(cfg.workers, _ => [])
    && |m.workers| == cfg.workers
    && (forall i :: 0 <= i < |m.workers| ==>
          && CellOk(m.workers[i], REGISTRATION_WORDS) && m.workers[i].holder == NO_PID
          && Live(m.workers[i]) == [0, 0, 0, 0])
    && CellOk(m.peer, RECORD_WORDS) && m.peer.holder == NO_PID
    && InitialRecord(cfg, WordsRecord(Live(m.peer)))
    && RoutedDown(m.peer) == WordsRecord(Live(m.peer)).health.down
  }

  lemma StartIsFull(cfg: Config, m: Machine)
    requires cfg.Valid() && MachineStart(cfg, m)
    ensures Start(cfg, Abstract(m)) && Full(cfg, WordsRecord(Live(m.peer)), m)
  {
    assert Start(cfg, Abstract(m)) by { hide WordsRecord; }
    InvAtStart(cfg, Abstract(m));
    hide Inv, WordsRecord;
  }

  // The protocol steps a run of the machine amounts to.
  function StepsOf(cfg: Config, m: Machine, actions: seq<Micro>): seq<Step> {
    if actions == [] then []
    else
      var rest := actions[..|actions| - 1];
      var s := StepOf(cfg, ActAll(cfg, m, rest), actions[|actions| - 1]);
      StepsOf(cfg, m, rest) + if s.Some? then [s.value] else []
  }

  // Every schedule of single memory accesses, pauses and deaths produces exactly the shared
  // states of a run of the atomic protocol.
  lemma {:induction false} MachineRefinesProtocol(cfg: Config, m: Machine, actions: seq<Micro>)
    requires cfg.Valid() && MachineStart(cfg, m)
    ensures Full(cfg, WordsRecord(Live(m.peer)), ActAll(cfg, m, actions))
    ensures Abstract(ActAll(cfg, m, actions)) == Execute(cfg, Abstract(m), StepsOf(cfg, m, actions))
  {
    if actions == [] {
      StartIsFull(cfg, m);
    } else {
      var rest, a := actions[..|actions| - 1], actions[|actions| - 1];
      MachineRefinesProtocol(cfg, m, rest);
      var n := ActAll(cfg, m, rest);
      hide Full, MachineStart, Act, StepOf, Exec, Abstract;
      ActKeeps(cfg, WordsRecord(Live(m.peer)), n, a);
      var steps := StepsOf(cfg, m, rest);
      var s := StepOf(cfg, n, a);
      if s.Some? {
        assert StepsOf(cfg, m, actions) == steps + [s.value];
        assert (steps + [s.value])[..|steps|] == steps;
      } else {
        assert StepsOf(cfg, m, actions) == steps;
      }
    }
  }

  // At every single memory access of every run: the live slot is one complete record, its
  // health is the sequential counter over all committed results, and the bit the router
  // reads without a lock is that record's state.
  lemma PublishedRecordAlwaysWhole(cfg: Config, m: Machine, actions: seq<Micro>)
    requires cfg.Valid() && MachineStart(cfg, m)
    ensures var n := ActAll(cfg, m, actions);
      var rec := WordsRecord(Live(n.peer));
      && rec.health == Fold(cfg.thresholds, WordsRecord(Live(m.peer)).health, n.commits)
      && RoutedDown(n.peer) == rec.health.down
      && |n.claims| == rec.round
  {
    MachineRefinesProtocol(cfg, m, actions);
    hide ProcessesOk, ClaimsOk, CommitsOk, TimersOk, WordsRecord;
  }

  // No reader ever returns a torn record: the complete copy of a live process that still
  // holds the lock is the published record of that very moment.
  lemma ReadersSeeWholeRecords(cfg: Config, m: Machine, actions: seq<Micro>, pid: Pid)
    requires cfg.Valid() && MachineStart(cfg, m)
    requires var n := ActAll(cfg, m, actions); pid in n.alive && Acts(n, pid) && ReadAll(At(n, pid))
    ensures var n := ActAll(cfg, m, actions);
      At(n, pid).buffer == if At(n, pid).ReadingPeer? then Live(n.peer) else Live(Own(n, pid))
  {
    MachineRefinesProtocol(cfg, m, actions);
    var n := ActAll(cfg, m, actions);
    AgentKnown(cfg, WordsRecord(Live(m.peer)), n, pid);
    hide Full;
  }

  // At every memory access of every run, two live processes never hold the same lock,
  // however many dead holders were removed before.
  lemma MutualExclusion(cfg: Config, m: Machine, actions: seq<Micro>, p: Pid, q: Pid)
    requires cfg.Valid() && MachineStart(cfg, m)
    ensures var n := ActAll(cfg, m, actions);
      p in n.alive && q in n.alive && p != q ==> Exclusive(n, p, q)
  {
    MachineRefinesProtocol(cfg, m, actions);
    var n := ActAll(cfg, m, actions);
    if p in n.alive && q in n.alive {
      AgentKnown(cfg, WordsRecord(Live(m.peer)), n, p);
      AgentKnown(cfg, WordsRecord(Live(m.peer)), n, q);
    }
    hide Full, Knows, WritesOk, Enabled, Enter, MachineStart, ActAll, CellsOk;
  }

  // What the lock words say is true: the lock a process works under names that process.
  lemma HoldersAreNamed(cfg: Config, m: Machine, actions: seq<Micro>, p: Pid)
    requires cfg.Valid() && MachineStart(cfg, m)
    ensures var n := ActAll(cfg, m, actions);
      p in n.alive ==>
        && Acts(n, p)
        && (HoldsPeer(At(n, p)) ==> n.peer.holder == p)
        && (HoldsWorker(At(n, p)) ==> Own(n, p).holder == p)
  {
    MachineRefinesProtocol(cfg, m, actions);
    var n := ActAll(cfg, m, actions);
    if p in n.alive {
      AgentKnown(cfg, WordsRecord(Live(m.peer)), n, p);
    }
    hide Full, Knows, WritesOk, Enabled, Enter, MachineStart, ActAll, CellsOk;
  }

  lemma ForceSpares(cfg: Config, m: Machine, pid: Pid, q: Pid)
    requires Acts(m, pid) ==> m.agents[pid].suspect != Some(q)
    ensures var n := Act(cfg, m, ForceUnlock(pid));
      && (m.peer.holder == q ==> n.peer.holder == q)
      && |n.workers| == |m.workers|
      && (forall i :: 0 <= i < |m.workers| && m.workers[i].holder == q ==> n.workers[i].holder == q)
  {
  }

  // Recovery never takes a lock from a process that is alive, however long it paused: in no
  // run does a forced unlock change a lock word that names a live process.
  lemma RecoverySparesTheLiving(cfg: Config, m: Machine, actions: seq<Micro>, pid: Pid, q: Pid)
    requires cfg.Valid() && MachineStart(cfg, m)
    ensures var n := ActAll(cfg, m, actions);
      var v := Act(cfg, n, ForceUnlock(pid));
      q in n.alive ==>
        && (n.peer.holder == q ==> v.peer.holder == q)
        && |v.workers| == |n.workers|
        && (forall i :: 0 <= i < |n.workers| && n.workers[i].holder == q ==> v.workers[i].holder == q)
  {
    hide MachineStart, ActAll, Act, Full;
    MachineRefinesProtocol(cfg, m, actions);
    var n := ActAll(cfg, m, actions);
    if q in n.alive {
      if Acts(n, pid) {
        AgentKnown(cfg, WordsRecord(Live(m.peer)), n, pid);
        hide Knows, WritesOk, Enabled, Enter, CellsOk, Abstract;
      }
      ForceSpares(cfg, n, pid, q);
    }
  }
}
