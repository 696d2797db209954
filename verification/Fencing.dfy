// Permanent loss of authority, uniqueness of takeovers, and the fate of finished results.

module Fencing {
  import opened Time
  import opened HealthCounter
  import opened Protocol
  import opened World
  import opened Invariant

  // The identity is the one the record shows, and its registration is still current.
  predicate Authority(w: World, id: Identity) {
    && id.worker < |w.registrations| && Current(w.registrations[id.worker], id.pid, id.instance)
    && IdentityOf(w.rec) == id
  }

  // Registrations only move forward, and an exiting one is never revived.
  predicate RegistrationLater(a: Registration, b: Registration) {
    a.instance < b.instance || (a.instance == b.instance && a.pid == b.pid && (a.exiting ==> b.exiting))
  }

  ghost predicate Later(w: World, v: World) {
    && w.claims <= v.claims && w.commits <= v.commits
    && |w.registrations| == |v.registrations|
    && forall i :: 0 <= i < |w.registrations| ==> RegistrationLater(w.registrations[i], v.registrations[i])
  }

  lemma RegistrationMoves(cfg: Config, initial: Record, w: World, pid: Pid, op: Op, contention: Contention)
    requires Inv(cfg, initial, w) && Enabled(cfg, w, Operate(pid, op, contention))
    requires op.Register? || op.Exit?
    ensures var e := EffectOf(cfg, w, pid, op, contention);
      e.publication.ToWorker? ==> RegistrationLater(w.registrations[w.processes[pid].worker], e.publication.registration)
  {
    Known(cfg, initial, w, pid);
    hide Inv;
  }

  lemma StepLater(cfg: Config, initial: Record, w: World, s: Step)
    requires Inv(cfg, initial, w)
    ensures Later(w, Exec(cfg, w, s))
  {
    if Enabled(cfg, w, s) && s.Operate? {
      EffectKeepsName(cfg, w, s.pid, s.op, s.contention);
      if s.op.Register? || s.op.Exit? {
        RegistrationMoves(cfg, initial, w, s.pid, s.op, s.contention);
      }
      hide Inv, EffectOf;
    }
    hide Inv;
  }

  lemma {:induction false} RunLater(cfg: Config, initial: Record, w: World, steps: seq<Step>)
    requires cfg.Valid() && Inv(cfg, initial, w)
    ensures Later(w, Execute(cfg, w, steps))
  {
    hide Inv;
    if steps != [] {
      var rest := steps[..|steps| - 1];
      RunLater(cfg, initial, w, rest);
      RunKeeps(cfg, initial, w, rest);
      StepLater(cfg, initial, Execute(cfg, w, rest), steps[|steps| - 1]);
    }
  }

  // id really claimed its round at some time.
  predicate Claimed(w: World, id: Identity) {
    1 <= id.round <= |w.claims| && w.claims[id.round - 1].id == id
  }

  lemma AuthorityLost(cfg: Config, initial: Record, w: World, v: World, id: Identity)
    requires Inv(cfg, initial, w) && Inv(cfg, initial, v) && Later(w, v)
    requires Claimed(w, id) && !Authority(w, id)
    ensures !Authority(v, id)
  {
    hide Fold, ProcessesOk, Spaced;
    assert ClaimOk(cfg, initial.started, w, id.round - 1);
    assert RegistrationLater(w.registrations[id.worker], v.registrations[id.worker]);
    assert w.registrations[id.worker].instance == |w.issued[id.worker]|;
    if id.round == |w.claims| && |v.claims| == |w.claims| {
      assert IdentityOf(w.rec) == id;
    }
  }

  // Any change of the record other than a new claim is made by the identity in authority.
  lemma ChangesNeedAuthority(cfg: Config, initial: Record, w: World, s: Step)
    requires Inv(cfg, initial, w)
    ensures var v := Exec(cfg, w, s);
      v.rec != w.rec && v.claims == w.claims ==>
        && s.Operate? && s.pid in w.processes && w.processes[s.pid].probe.Some?
        && Authority(w, ProbeIdentity(w.processes[s.pid], w.processes[s.pid].probe.value))
    ensures var v := Exec(cfg, w, s);
      v.commits != w.commits ==>
        && s.Operate? && s.op.Submit? && s.pid in w.processes && w.processes[s.pid].probe.Some?
        && var p := w.processes[s.pid];
        && Authority(w, ProbeIdentity(p, p.probe.value)) && s.op.clock.Some?
        && v.commits == w.commits + [Commit(ProbeIdentity(p, p.probe.value), p.probe.value.outcome, s.op.clock.value)]
  {
    hide Apply, ProbeOk, ClaimOk, CommitOk;
    if Enabled(cfg, w, s) && s.Operate? {
      Known(cfg, initial, w, s.pid);
      hide Inv;
    }
  }

  // Fencing is permanent: once an identity is taken over, superseded by a new registration
  // or marked exiting, it never regains authority and never commits again, however late
  // its process resumes.
  lemma {:induction false} FencingIsPermanent(cfg: Config, initial: Record, w: World, id: Identity, steps: seq<Step>)
    requires cfg.Valid() && Inv(cfg, initial, w)
    requires Claimed(w, id) && !Authority(w, id)
    ensures var v := Execute(cfg, w, steps);
      && !Authority(v, id)
      && w.commits <= v.commits
      && (forall k :: |w.commits| <= k < |v.commits| ==> v.commits[k].id != id)
  {
    hide Inv, Authority;
    if steps != [] {
      var rest := steps[..|steps| - 1];
      var u := Execute(cfg, w, rest);
      FencingIsPermanent(cfg, initial, w, id, rest);
      RunKeeps(cfg, initial, w, rest);
      StepKeeps(cfg, initial, u, steps[|steps| - 1]);
      RunLater(cfg, initial, w, steps);
      AuthorityLost(cfg, initial, w, Execute(cfg, w, steps), id);
      ChangesNeedAuthority(cfg, initial, u, steps[|steps| - 1]);
    }
  }

  // Whatever a fenced-off round still does, it can neither change the record nor commit;
  // its process can only start over with a new claim.
  lemma FencedRoundIsHarmless(cfg: Config, initial: Record, w: World, id: Identity, steps: seq<Step>, s: Step)
    requires cfg.Valid() && Inv(cfg, initial, w)
    requires Claimed(w, id) && !Authority(w, id)
    requires var v := Execute(cfg, w, steps);
      && s.Operate? && s.pid in v.processes && v.processes[s.pid].probe.Some?
      && ProbeIdentity(v.processes[s.pid], v.processes[s.pid].probe.value) == id
    ensures var v := Execute(cfg, w, steps);
      && Exec(cfg, v, s).commits == v.commits
      && (Exec(cfg, v, s).claims == v.claims ==> Exec(cfg, v, s).rec == v.rec)
  {
    FencingIsPermanent(cfg, initial, w, id, steps);
    RunKeeps(cfg, initial, w, steps);
    ChangesNeedAuthority(cfg, initial, Execute(cfg, w, steps), s);
  }

  // The successful takeover: it claims a round on behalf of a process that did not own it.
  predicate TakesOver(cfg: Config, w: World, s: Step) {
    && s.Operate? && s.op.Takeover? && Enabled(cfg, w, s)
    && |Exec(cfg, w, s).claims| > |w.claims|
  }

  lemma TakeoverMatches(cfg: Config, initial: Record, w: World, s: Step)
    requires Inv(cfg, initial, w) && TakesOver(cfg, w, s)
    ensures w.processes[s.pid].observed.Some?
    ensures w.processes[s.pid].observed.value.round == w.rec.round == |w.claims|
    ensures |Exec(cfg, w, s).claims| == |w.claims| + 1
  {
    Known(cfg, initial, w, s.pid);
    hide Inv;
  }

  // Of all processes that observed the same stalled round at most one takes it over.
  lemma OneTakeoverPerObservation(cfg: Config, initial: Record, w: World, first: Step, between: seq<Step>, second: Step)
    requires cfg.Valid() && Inv(cfg, initial, w)
    requires TakesOver(cfg, w, first)
    requires TakesOver(cfg, Execute(cfg, Exec(cfg, w, first), between), second)
    ensures var v := Execute(cfg, Exec(cfg, w, first), between);
      w.processes[first.pid].observed.Some? && v.processes[second.pid].observed.Some? &&
      w.processes[first.pid].observed.value.round < v.processes[second.pid].observed.value.round
  {
    hide Inv, TakesOver;
    var u := Exec(cfg, w, first);
    StepKeeps(cfg, initial, w, first);
    RunKeeps(cfg, initial, u, between);
    RunLater(cfg, initial, u, between);
    var v := Execute(cfg, u, between);
    TakeoverMatches(cfg, initial, w, first);
    TakeoverMatches(cfg, initial, v, second);
  }

  // ---- The fate of a finished result ----

  predicate HoldsResult(w: World, pid: Pid, probe: Probe) {
    pid in w.processes && w.processes[pid].probe == Some(probe) && probe.pending
  }

  predicate ActsFor(s: Step, pid: Pid) { !s.Tick? && s.pid == pid }

  // Only the shutdown of its process may drop a result.
  predicate Shutdown(s: Step, pid: Pid) {
    ActsFor(s, pid) && (s.Quit? || (s.Operate? && s.op.Submit? && s.op.quit))
  }

  predicate ReportsResult(w: World, v: World, id: Identity, outcome: Outcome) {
    && |v.commits| == |w.commits| + 1
    && v.commits[|w.commits|].id == id && v.commits[|w.commits|].outcome == outcome
  }

  lemma OthersUntouched(cfg: Config, initial: Record, w: World, s: Step, pid: Pid)
    requires Inv(cfg, initial, w) && pid in w.processes && !ActsFor(s, pid)
    ensures pid in Exec(cfg, w, s).processes && Exec(cfg, w, s).processes[pid] == w.processes[pid]
  {
    if Enabled(cfg, w, s) && !s.Tick? && s.pid in w.processes {
      Known(cfg, initial, w, s.pid);
      if s.Operate? {
        EffectKeepsName(cfg, w, s.pid, s.op, s.contention);
      }
    }
    hide Inv, EffectOf;
  }

  // The holder's own operations: they keep the result or commit it.
  lemma OwnOperation(cfg: Config, initial: Record, w: World, pid: Pid, op: Op, contention: Contention)
    requires Inv(cfg, initial, w) && Enabled(cfg, w, Operate(pid, op, contention))
    requires w.processes[pid].probe.Some? && w.processes[pid].probe.value.pending
    requires Authority(w, ProbeIdentity(w.processes[pid], w.processes[pid].probe.value))
    requires op.Submit? ==> !op.quit
    ensures var e := EffectOf(cfg, w, pid, op, contention);
      && (e.process.probe == w.processes[pid].probe || (op.Submit? && e.publication.ToPeer?))
      && (e.publication.ToPeer? ==> op.Submit?)
  {
    hide Apply;
    Known(cfg, initial, w, pid);
    hide Inv;
  }

  lemma ResultStep(cfg: Config, initial: Record, w: World, s: Step, pid: Pid, probe: Probe)
    requires Inv(cfg, initial, w) && HoldsResult(w, pid, probe)
    requires Authority(w, ProbeIdentity(w.processes[pid], probe)) && !Shutdown(s, pid)
    ensures var v := Exec(cfg, w, s);
      && pid in v.processes && v.processes[pid].worker == w.processes[pid].worker && v.processes[pid].pid == w.processes[pid].pid
      && (HoldsResult(v, pid, probe) || ReportsResult(w, v, ProbeIdentity(w.processes[pid], probe), probe.outcome))
  {
    Known(cfg, initial, w, pid);
    if !ActsFor(s, pid) {
      OthersUntouched(cfg, initial, w, s, pid);
    } else if Enabled(cfg, w, s) && s.Operate? {
      EffectKeepsName(cfg, w, pid, s.op, s.contention);
      OwnOperation(cfg, initial, w, pid, s.op, s.contention);
      hide EffectOf;
    }
    hide Inv;
  }

  // A finished result is neither lost nor overwritten while its identity is in authority:
  // after any further steps it is still held unchanged, or it was committed, or the
  // identity was fenced off.
  lemma {:induction false} ResultSurvives(cfg: Config, initial: Record, w: World, pid: Pid, probe: Probe, steps: seq<Step>)
    requires cfg.Valid() && Inv(cfg, initial, w) && HoldsResult(w, pid, probe)
    requires forall i :: 0 <= i < |steps| ==> !Shutdown(steps[i], pid)
    ensures var v := Execute(cfg, w, steps);
      var id := ProbeIdentity(w.processes[pid], probe);
      || !Authority(v, id)
      || (pid in v.processes && ProbeIdentity(v.processes[pid], probe) == id && HoldsResult(v, pid, probe))
      || exists k :: |w.commits| <= k < |v.commits| && v.commits[k].id == id && v.commits[k].outcome == probe.outcome
  {
    hide Inv, Authority;
    if steps != [] {
      var rest, s := steps[..|steps| - 1], steps[|steps| - 1];
      var id := ProbeIdentity(w.processes[pid], probe);
      var u, v := Execute(cfg, w, rest), Execute(cfg, w, steps);
      ResultSurvives(cfg, initial, w, pid, probe, rest);
      RunKeeps(cfg, initial, w, rest);
      StepKeeps(cfg, initial, u, s);
      StepLater(cfg, initial, u, s);
      RunLater(cfg, initial, w, rest);
      if !Authority(u, id) {
        HolderClaimed(cfg, initial, w, pid, probe);
        assert Claimed(u, id);
        AuthorityLost(cfg, initial, u, v, id);
      } else if pid in u.processes && ProbeIdentity(u.processes[pid], probe) == id && HoldsResult(u, pid, probe) {
        ResultStep(cfg, initial, u, s, pid, probe);
        if !HoldsResult(v, pid, probe) {
          var k := |u.commits|;
          assert v.commits[k].id == id;
        }
      } else {
        var k :| |w.commits| <= k < |u.commits| && u.commits[k].id == id && u.commits[k].outcome == probe.outcome;
        assert v.commits[k] == u.commits[k];
      }
    }
  }

  lemma HolderClaimed(cfg: Config, initial: Record, w: World, pid: Pid, probe: Probe)
    requires Inv(cfg, initial, w) && HoldsResult(w, pid, probe)
    ensures Claimed(w, ProbeIdentity(w.processes[pid], probe))
  {
    Known(cfg, initial, w, pid);
  }

  // A held result keeps its process from claiming another round.
  lemma ResultBlocksClaims(cfg: Config, initial: Record, w: World, pid: Pid, probe: Probe, s: Step)
    requires Inv(cfg, initial, w) && HoldsResult(w, pid, probe) && ActsFor(s, pid)
    ensures Exec(cfg, w, s).claims == w.claims
  {
    if Enabled(cfg, w, s) && s.Operate? {
      EffectKeepsName(cfg, w, pid, s.op, s.contention);
      if s.op.Begin? || s.op.Takeover? {
        assert Enter(cfg, s.op, w.processes[pid]).Some?;
      }
    }
    hide Inv;
  }

  // An uncontended submit in authority always commits: the phase test cannot refuse it.
  lemma SubmitCommits(cfg: Config, initial: Record, w: World, pid: Pid, probe: Probe, now: U64)
    requires Inv(cfg, initial, w) && HoldsResult(w, pid, probe) && Alive(w, pid)
    requires Authority(w, ProbeIdentity(w.processes[pid], probe))
    requires Reads(w, w.processes[pid], now)
    ensures var v := Exec(cfg, w, Operate(pid, Submit(Some(now), false), Uncontended));
      && ReportsResult(w, v, ProbeIdentity(w.processes[pid], probe), probe.outcome)
      && v.rec.phase == Waiting && !HoldsResult(v, pid, probe)
  {
    Known(cfg, initial, w, pid);
    OwnedRoundRuns(cfg, initial, w, pid);
    hide Inv, Apply;
    var p := w.processes[pid];
    var op := Submit(Some(now), false);
    assert EffectOf(cfg, w, pid, op, Uncontended) == SubmitEffect(cfg, p, Some(now), false, w.registrations[p.worker], w.rec);
  }
}
