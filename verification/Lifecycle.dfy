// A worker's life as the others see it: registering and renewing, falling silent, exiting
// and stopping.

module Lifecycle {
  import opened Time
  import opened HealthCounter
  import opened Protocol
  import opened World
  import opened Invariant
  import opened Operations
  import opened Records
  import Fencing
  import Watch

  // ---- Heartbeats ----

  // A process that is new, with instance numbers left, or still the registered one.
  predicate Registers(w: World, pid: Pid)
    requires pid in w.processes && w.processes[pid].worker < |w.registrations|
  {
    var p, entry := w.processes[pid], Entry(w, pid);
    if p.registered then Registered(entry, pid, p.instance) else entry.instance < U64_MAX
  }

  // A registration of now makes its worker a candidate for every record of another owner,
  // for exactly as long as the grace.
  ghost predicate AliveSince(cfg: Config, entry: Registration, worker: nat, now: U64) {
    && entry.heartbeat == now
    && forall rec: Record, at: U64 :: now <= at && (rec.worker != worker || rec.instance != entry.instance) ==>
         (Watch.Fresh(Some(entry), worker, rec, at, cfg.grace) <==> at < now + cfg.grace)
  }

  // Registering, first or again, shows the process under its own number as alive since now.
  lemma RegisteringRenews(cfg: Config, initial: Record, w: World, pid: Pid, now: U64)
    requires Inv(cfg, initial, w) && May(cfg, w, pid, Register(now)) && Registers(w, pid)
    ensures var v := After(cfg, w, pid, Register(now));
      pid in v.processes && v.processes[pid].worker < |v.registrations| &&
      var q, entry := v.processes[pid], Entry(v, pid);
      && q.registered && q.worker == w.processes[pid].worker && Registered(entry, pid, q.instance)
      && AliveSince(cfg, entry, q.worker, now)
  {
    Known(cfg, initial, w, pid);
    RegisterDoes(cfg, w, pid, now);
    hide Exec, Inv, ProbeOk;
  }

  // Steps that write the registration of a worker.
  predicate Touches(w: World, s: Step, worker: nat) {
    s.Operate? && (s.op.Register? || s.op.Exit?) && s.pid in w.processes && w.processes[s.pid].worker == worker
  }

  ghost predicate Untouched(cfg: Config, w: World, steps: seq<Step>, worker: nat) {
    forall k :: 0 <= k < |steps| ==> !Touches(Execute(cfg, w, steps[..k]), steps[k], worker)
  }

  lemma StepLeavesEntry(cfg: Config, initial: Record, w: World, s: Step, worker: nat)
    requires Inv(cfg, initial, w) && worker < |w.registrations| && !Touches(w, s, worker)
    ensures var v := Exec(cfg, w, s); |v.registrations| == |w.registrations| && v.registrations[worker] == w.registrations[worker]
  {
    if Enabled(cfg, w, s) && s.Operate? {
      EffectKeepsName(cfg, w, s.pid, s.op, s.contention);
    }
    hide Inv, EffectOf, Chosen;
  }

  lemma {:induction false} RunLeavesEntry(cfg: Config, initial: Record, w: World, steps: seq<Step>, worker: nat)
    requires cfg.Valid() && Inv(cfg, initial, w) && worker < |w.registrations| && Untouched(cfg, w, steps, worker)
    ensures var v := Execute(cfg, w, steps); |v.registrations| == |w.registrations| && v.registrations[worker] == w.registrations[worker]
  {
    hide Inv, Exec, Touches;
    if steps != [] {
      var n := |steps| - 1;
      assert forall k :: 0 <= k < n ==> steps[..n][..k] == steps[..k] && steps[..n][k] == steps[k];
      RunLeavesEntry(cfg, initial, w, steps[..n], worker);
      RunKeeps(cfg, initial, w, steps[..n]);
      StepLeavesEntry(cfg, initial, Execute(cfg, w, steps[..n]), steps[n], worker);
    }
  }

  // A worker that registers at some moment of a run and then neither renews nor exits counts
  // as alive, whatever else happens, until the grace is over, and as dead from then on.
  lemma SilentWorkerExpires(cfg: Config, start: World, before: seq<Step>, pid: Pid, now: U64, steps: seq<Step>)
    requires cfg.Valid() && Start(cfg, start)
    requires var w := Execute(cfg, start, before);
      && May(cfg, w, pid, Register(now)) && Registers(w, pid)
      && Untouched(cfg, After(cfg, w, pid, Register(now)), steps, w.processes[pid].worker)
    ensures var w := Execute(cfg, start, before);
      Expires(cfg, Execute(cfg, After(cfg, w, pid, Register(now)), steps), pid, w.processes[pid].worker, now)
  {
    InvAtStart(cfg, start);
    RunKeeps(cfg, start.rec, start, before);
    hide Inv, Start, Exec, Execute, Expires, Untouched, May, Registers, After;
    ExpiresFrom(cfg, start.rec, Execute(cfg, start, before), pid, now, steps);
  }

  ghost predicate Expires(cfg: Config, v: World, pid: Pid, worker: nat, now: U64) {
    worker < |v.registrations| && v.registrations[worker].pid == pid && AliveSince(cfg, v.registrations[worker], worker, now)
  }

  lemma ExpiresFrom(cfg: Config, initial: Record, w: World, pid: Pid, now: U64, steps: seq<Step>)
    requires cfg.Valid() && Inv(cfg, initial, w) && May(cfg, w, pid, Register(now)) && Registers(w, pid)
    requires Untouched(cfg, After(cfg, w, pid, Register(now)), steps, w.processes[pid].worker)
    ensures Expires(cfg, Execute(cfg, After(cfg, w, pid, Register(now)), steps), pid, w.processes[pid].worker, now)
  {
    hide Inv, Exec, Execute, AliveSince, Untouched;
    RegisteringRenews(cfg, initial, w, pid, now);
    StepKeeps(cfg, initial, w, Operate(pid, Register(now), Uncontended));
    RunLeavesEntry(cfg, initial, After(cfg, w, pid, Register(now)), steps, w.processes[pid].worker);
  }

  // ---- Exits ----

  // Nothing of a history beyond the first so many entries is by that registration.
  ghost predicate Inactive(v: World, claims: nat, commits: nat, worker: U64, instance: U64) {
    && (forall k :: claims <= k < |v.claims| ==> !(v.claims[k].id.worker == worker && v.claims[k].id.instance == instance))
    && (forall k :: commits <= k < |v.commits| ==> !(v.commits[k].id.worker == worker && v.commits[k].id.instance == instance))
  }

  // A new entry of a history is by the acting process, under its current registration.
  predicate ByActor(w: World, s: Step, id: Identity) {
    && Acts(w, s) && id.pid == s.pid && id.worker == w.processes[s.pid].worker
    && Registered(Entry(w, s.pid), s.pid, id.instance) && !w.processes[s.pid].stopping
  }

  lemma NewEntries(cfg: Config, w: World, v: World, s: Step)
    requires Moves(cfg, w, v, s)
    ensures v.claims == w.claims || (|v.claims| == |w.claims| + 1 && w.claims <= v.claims && ByActor(w, s, v.claims[|w.claims|].id))
    ensures v.commits == w.commits || (|v.commits| == |w.commits| + 1 && w.commits <= v.commits && ByActor(w, s, v.commits[|w.commits|].id))
  {
    hide NumbersLeft, Running;
  }

  // The registration is replaced or marked.
  predicate Gone(v: World, worker: U64, instance: U64) {
    worker < |v.registrations| &&
    (v.registrations[worker].instance > instance || (v.registrations[worker].instance == instance && v.registrations[worker].exiting))
  }

  lemma StaysInactive(w: World, v: World, s: Step, claims: nat, commits: nat, worker: U64, instance: U64)
    requires Gone(w, worker, instance) && claims <= |w.claims| && commits <= |w.commits| && Inactive(w, claims, commits, worker, instance)
    requires v.claims == w.claims || (|v.claims| == |w.claims| + 1 && w.claims <= v.claims && ByActor(w, s, v.claims[|w.claims|].id))
    requires v.commits == w.commits || (|v.commits| == |w.commits| + 1 && w.commits <= v.commits && ByActor(w, s, v.commits[|w.commits|].id))
    ensures Inactive(v, claims, commits, worker, instance)
  {
  }

  lemma GoneStepsAside(cfg: Config, initial: Record, w: World, s: Step, claims: nat, commits: nat, worker: U64, instance: U64)
    requires Inv(cfg, initial, w) && Gone(w, worker, instance) && claims <= |w.claims| && commits <= |w.commits|
    requires Inactive(w, claims, commits, worker, instance)
    ensures var v := Exec(cfg, w, s); Gone(v, worker, instance) && Inactive(v, claims, commits, worker, instance)
  {
    hide Inv, Exec, Moves, Turns, Inactive, ByActor;
    var v := Exec(cfg, w, s);
    StepMoves(cfg, initial, w, s);
    NewEntries(cfg, w, v, s);
    StaysInactive(w, v, s, claims, commits, worker, instance);
    Fencing.StepLater(cfg, initial, w, s);
  }

  lemma {:induction false} GoneForGood(cfg: Config, initial: Record, w: World, steps: seq<Step>, worker: U64, instance: U64)
    requires cfg.Valid() && Inv(cfg, initial, w) && Gone(w, worker, instance)
    ensures var v := Execute(cfg, w, steps);
      Gone(v, worker, instance) && |w.claims| <= |v.claims| && |w.commits| <= |v.commits|
      && Inactive(v, |w.claims|, |w.commits|, worker, instance)
  {
    hide Inv, Exec, Gone;
    if steps != [] {
      var n := |steps| - 1;
      var u := Execute(cfg, w, steps[..n]);
      GoneForGood(cfg, initial, w, steps[..n], worker, instance);
      RunKeeps(cfg, initial, w, steps[..n]);
      Fencing.RunLater(cfg, initial, w, steps);
      GoneStepsAside(cfg, initial, u, steps[n], |w.claims|, |w.commits|, worker, instance);
    }
  }

  // Once a stopping process had its registration lock, no claim and no commit of any later
  // state is its registration's, and no worker takes it for alive again.
  lemma ExitIsFinal(cfg: Config, start: World, before: seq<Step>, pid: Pid, steps: seq<Step>)
    requires cfg.Valid() && Start(cfg, start)
    requires May(cfg, Execute(cfg, start, before), pid, Exit)
    ensures var w := Execute(cfg, start, before);
      var v := Execute(cfg, After(cfg, w, pid, Exit), steps);
      var p := w.processes[pid];
      && Gone(v, p.worker, p.instance) && Inactive(v, |w.claims|, |w.commits|, p.worker, p.instance)
      && forall rec: Record, at: U64 :: v.registrations[p.worker].instance == p.instance ==>
           !Watch.Fresh(Some(v.registrations[p.worker]), p.worker, rec, at, cfg.grace)
  {
    InvAtStart(cfg, start);
    RunKeeps(cfg, start.rec, start, before);
    var w := Execute(cfg, start, before);
    StepKeeps(cfg, start.rec, w, Operate(pid, Exit, Uncontended));
    ExitGoes(cfg, start.rec, w, pid);
    hide Inv, Start, Exec;
    var p := w.processes[pid];
    GoneForGood(cfg, start.rec, After(cfg, w, pid, Exit), steps, p.worker, p.instance);
  }

  lemma ExitGoes(cfg: Config, initial: Record, w: World, pid: Pid)
    requires Inv(cfg, initial, w) && May(cfg, w, pid, Exit)
    ensures var v := After(cfg, w, pid, Exit);
      Gone(v, w.processes[pid].worker, w.processes[pid].instance) && v.claims == w.claims && v.commits == w.commits
  {
    Known(cfg, initial, w, pid);
    ExitDoes(cfg, w, pid);
    hide Exec, Inv, ProbeOk;
  }

  // ---- Stopping ----

  ghost predicate AllQuiet(w: World) {
    forall pid :: pid in w.processes && w.processes[pid].stopping ==> Silent(w.processes[pid])
  }

  lemma StepQuiet(cfg: Config, initial: Record, w: World, s: Step)
    requires Inv(cfg, initial, w) && AllQuiet(w)
    ensures AllQuiet(Exec(cfg, w, s))
  {
    StepMoves(cfg, initial, w, s);
    hide Inv, Exec, Moves, Looks, Silent;
  }

  // A process that stops has no timer, no round and no observation, for good, and every
  // claim and commit from then on is by another process.
  lemma {:induction false} StoppedIsSilent(cfg: Config, start: World, before: seq<Step>, steps: seq<Step>, pid: Pid)
    requires cfg.Valid() && Start(cfg, start)
    requires pid in Execute(cfg, start, before).processes && Execute(cfg, start, before).processes[pid].stopping
    ensures var w := Execute(cfg, start, before);
      var v := Execute(cfg, w, steps);
      && pid in v.processes && v.processes[pid].stopping && Silent(v.processes[pid])
      && w.claims <= v.claims && w.commits <= v.commits
      && (forall k :: |w.claims| <= k < |v.claims| ==> v.claims[k].id.pid != pid)
      && (forall k :: |w.commits| <= k < |v.commits| ==> v.commits[k].id.pid != pid)
  {
    RunQuiet(cfg, start, before);
    hide Inv, Exec, Silent, AllQuiet, Start;
    StaysSilent(cfg, start.rec, Execute(cfg, start, before), steps, pid);
  }

  lemma {:induction false} RunQuiet(cfg: Config, start: World, steps: seq<Step>)
    requires cfg.Valid() && Start(cfg, start)
    ensures Inv(cfg, start.rec, Execute(cfg, start, steps)) && AllQuiet(Execute(cfg, start, steps))
  {
    InvAtStart(cfg, start);
    hide Inv, Exec, Silent;
    if steps != [] {
      var n := |steps| - 1;
      RunQuiet(cfg, start, steps[..n]);
      StepKeeps(cfg, start.rec, Execute(cfg, start, steps[..n]), steps[n]);
      StepQuiet(cfg, start.rec, Execute(cfg, start, steps[..n]), steps[n]);
    }
  }

  lemma {:induction false} StaysSilent(cfg: Config, initial: Record, w: World, steps: seq<Step>, pid: Pid)
    requires cfg.Valid() && Inv(cfg, initial, w) && AllQuiet(w) && pid in w.processes && w.processes[pid].stopping
    ensures var v := Execute(cfg, w, steps);
      && Inv(cfg, initial, v) && AllQuiet(v) && pid in v.processes && v.processes[pid].stopping
      && w.claims <= v.claims && w.commits <= v.commits
      && (forall k :: |w.claims| <= k < |v.claims| ==> v.claims[k].id.pid != pid)
      && (forall k :: |w.commits| <= k < |v.commits| ==> v.commits[k].id.pid != pid)
  {
    hide Inv, Exec, AllQuiet;
    if steps != [] {
      var n := |steps| - 1;
      var u, s := Execute(cfg, w, steps[..n]), steps[n];
      StaysSilent(cfg, initial, w, steps[..n], pid);
      StepKeeps(cfg, initial, u, s);
      StepQuiet(cfg, initial, u, s);
      SilentStep(cfg, initial, u, s, pid);
    }
  }

  lemma TurnsStayStopped(cfg: Config, w: World, v: World, s: Step, pid: Pid)
    requires Turns(cfg, w, v, s) && pid in w.processes && w.processes[pid].stopping
    ensures pid in v.processes && v.processes[pid].stopping
  {
    hide Claims, Looks, Silent;
  }

  lemma SilentStep(cfg: Config, initial: Record, w: World, s: Step, pid: Pid)
    requires Inv(cfg, initial, w) && pid in w.processes && w.processes[pid].stopping
    ensures var v := Exec(cfg, w, s);
      && pid in v.processes && v.processes[pid].stopping && w.claims <= v.claims && w.commits <= v.commits
      && (forall k :: |w.claims| <= k < |v.claims| ==> v.claims[k].id.pid != pid)
      && (forall k :: |w.commits| <= k < |v.commits| ==> v.commits[k].id.pid != pid)
  {
    hide Inv, Exec, Moves, Turns;
    StepMoves(cfg, initial, w, s);
    NewEntries(cfg, w, Exec(cfg, w, s), s);
    TurnsStayStopped(cfg, w, Exec(cfg, w, s), s, pid);
  }
}
