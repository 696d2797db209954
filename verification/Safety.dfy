// Whole-run theorems of the ownership protocol. Every statement quantifies over all step
// sequences: any number of processes, any interleaving, pauses and deaths at any point.

module Safety {
  import opened Time
  import opened HealthCounter
  import opened Protocol
  import opened World
  import opened Invariant
  import Delay

  lemma Reached(cfg: Config, start: World, steps: seq<Step>)
    requires cfg.Valid() && Start(cfg, start)
    ensures Inv(cfg, start.rec, Execute(cfg, start, steps))
  {
    InvAtStart(cfg, start);
    RunKeeps(cfg, start.rec, start, steps);
  }

  // ---- Sequential refinement ----

  lemma {:induction false} RoundsIncrease(w: World, j: nat, k: nat)
    requires EntriesOk(w) && j < k < |w.commits|
    ensures w.commits[j].id.round < w.commits[k].id.round
  {
    assert CommitOk(w, k);
    if j + 1 < k {
      RoundsIncrease(w, j, k - 1);
    }
  }

  // The published health is the sequential counter applied to the committed results: no
  // round commits twice, and each commit is by exactly the process, worker, instance and
  // term that claimed its round.
  lemma SequentialRefinement(cfg: Config, start: World, steps: seq<Step>)
    requires cfg.Valid() && Start(cfg, start)
    ensures var w := Execute(cfg, start, steps);
      && w.rec.health == Fold(cfg.thresholds, start.rec.health, w.commits)
      && (forall j, k :: 0 <= j < k < |w.commits| ==> w.commits[j].id.round < w.commits[k].id.round)
      && (forall k :: 0 <= k < |w.commits| ==>
            1 <= w.commits[k].id.round <= |w.claims| && w.claims[w.commits[k].id.round - 1].id == w.commits[k].id)
  {
    Reached(cfg, start, steps);
    var w := Execute(cfg, start, steps);
    forall j, k | 0 <= j < k < |w.commits| ensures w.commits[j].id.round < w.commits[k].id.round {
      RoundsIncrease(w, j, k);
    }
    forall k | 0 <= k < |w.commits|
      ensures 1 <= w.commits[k].id.round <= |w.claims| && w.claims[w.commits[k].id.round - 1].id == w.commits[k].id
    {
      assert CommitOk(w, k);
    }
  }

  function Verdict(commit: Commit): bool { commit.outcome.Success? }

  function AllVerdicts(commits: seq<Commit>): (verdicts: seq<bool>)
    ensures |verdicts| == |commits|
  {
    if commits == [] then []
    else AllVerdicts(commits[..|commits| - 1]) + [Verdict(commits[|commits| - 1])]
  }

  // Delays and times do not influence the counters.
  lemma {:induction false} FoldCounts(t: Thresholds, h: Health, commits: seq<Commit>)
    requires h.riseCount == 0 && h.fallCount == 0
    ensures var f, v := Fold(t, h, commits), Verdicts(t, Fresh(h.down), AllVerdicts(commits));
      f.down == v.down && f.riseCount == v.riseCount && f.fallCount == v.fallCount
  {
    if commits != [] {
      var rest := commits[..|commits| - 1];
      FoldCounts(t, h, rest);
      assert AllVerdicts(commits)[..|commits| - 1] == AllVerdicts(rest);
    }
  }

  // From a record with zero counters, the published state is at every moment the one the
  // documentation prescribes for the unbounded sequence of committed verdicts.
  lemma PublishedStateIsDocumented(cfg: Config, start: World, steps: seq<Step>)
    requires cfg.Valid() && Start(cfg, start)
    requires start.rec.health.riseCount == 0 && start.rec.health.fallCount == 0
    ensures var w := Execute(cfg, start, steps);
      var verdicts := AllVerdicts(w.commits);
      && w.rec.health.down == Decided(cfg.thresholds, start.rec.health.down, verdicts)
      && w.rec.health.fallCount == Counter(Run(verdicts, false), cfg.thresholds.fall)
      && w.rec.health.riseCount == Counter(Run(verdicts, true), cfg.thresholds.rise)
  {
    Reached(cfg, start, steps);
    var w := Execute(cfg, start, steps);
    FoldCounts(cfg.thresholds, start.rec.health, w.commits);
    CountersRefineRuns(cfg.thresholds, start.rec.health.down, AllVerdicts(w.commits));
  }

  lemma {:induction false} FoldDelay(t: Thresholds, h: Health, commits: seq<Commit>)
    requires Delay.Sound(h.delay)
    ensures Delay.Sound(Fold(t, h, commits).delay)
  {
    hide Delay.Sound;
    if commits != [] {
      var rest, last := commits[..|commits| - 1], commits[|commits| - 1];
      FoldDelay(t, h, rest);
      var d := Fold(t, h, rest).delay;
      if last.outcome.Success? && last.outcome.sample.Some? && Delay.Accept(d, last.outcome.sample.value).Some? {
        Delay.AcceptKeepsSound(d, last.outcome.sample.value);
      }
    }
  }

  // Delay statistics stay within the sampled extremes in every reachable state, even
  // though the final error of an overflowing sample is ignored by the commit.
  lemma DelayAlwaysSound(cfg: Config, start: World, steps: seq<Step>)
    requires cfg.Valid() && Start(cfg, start) && Delay.Sound(start.rec.health.delay)
    ensures var d := Execute(cfg, start, steps).rec.health.delay;
      d.count > 0 ==> d.min <= d.avg <= d.max && d.min <= d.last <= d.max
  {
    Reached(cfg, start, steps);
    FoldDelay(cfg.thresholds, start.rec.health, Execute(cfg, start, steps).commits);
    var d := Execute(cfg, start, steps).rec.health.delay;
    if d.count > 0 {
      Delay.SoundAverage(d);
    }
  }

  // ---- Identities ----

  lemma {:induction false} TermsOrdered(cfg: Config, inherited: U64, w: World, i: nat, j: nat)
    requires ClaimsOk(cfg, inherited, w) && i <= j < |w.claims|
    ensures w.claims[i].id.term <= w.claims[j].id.term
    ensures w.claims[i].id.term == w.claims[j].id.term ==> SameOwner(w.claims[i].id, w.claims[j].id)
  {
    hide Spaced;
    if i < j {
      TermsOrdered(cfg, inherited, w, i, j - 1);
      assert ClaimOk(cfg, inherited, w, j);
    }
  }

  lemma ClaimsIdentify(cfg: Config, inherited: U64, w: World)
    requires ClaimsOk(cfg, inherited, w)
    ensures forall i :: 0 <= i < |w.claims| ==> w.claims[i].id.round == i + 1
    ensures (forall i, j :: 0 <= i <= j < |w.claims| && w.claims[i].id.term == w.claims[j].id.term
               ==> SameOwner(w.claims[i].id, w.claims[j].id))
    ensures (forall i, j :: 0 <= i <= j < |w.claims| && SameOwner(w.claims[i].id, w.claims[j].id)
               ==> w.claims[i].id.pid == w.claims[j].id.pid)
  {
    forall i, j | 0 <= i <= j < |w.claims| && w.claims[i].id.term == w.claims[j].id.term
      ensures SameOwner(w.claims[i].id, w.claims[j].id)
    {
      TermsOrdered(cfg, inherited, w, i, j);
    }
    hide Spaced;
    forall i, j | 0 <= i <= j < |w.claims| && SameOwner(w.claims[i].id, w.claims[j].id)
      ensures w.claims[i].id.pid == w.claims[j].id.pid
    {
      assert ClaimOk(cfg, inherited, w, i) && ClaimOk(cfg, inherited, w, j);
    }
    forall i | 0 <= i < |w.claims| ensures w.claims[i].id.round == i + 1 {
      assert ClaimOk(cfg, inherited, w, i);
    }
  }

  // Round 0, term 0, instance 0 and the initial phase coincide; a round determines its
  // claimant, a term determines one (worker, instance), and that determines one process.
  lemma IdentityInvariant(cfg: Config, start: World, steps: seq<Step>)
    requires cfg.Valid() && Start(cfg, start)
    ensures var w := Execute(cfg, start, steps);
      && (w.rec.round == 0 <==> w.rec.term == 0) && (w.rec.round == 0 <==> w.rec.instance == 0)
      && (w.rec.round == 0 <==> w.rec.phase == Initial)
      && (w.rec.round > 0 ==> 1 <= w.rec.term <= w.rec.round)
      && |w.claims| == w.rec.round
      && (forall i :: 0 <= i < |w.claims| ==> w.claims[i].id.round == i + 1)
      && (forall i, j :: 0 <= i <= j < |w.claims| && w.claims[i].id.term == w.claims[j].id.term
            ==> SameOwner(w.claims[i].id, w.claims[j].id))
      && (forall i, j :: 0 <= i <= j < |w.claims| && SameOwner(w.claims[i].id, w.claims[j].id)
            ==> w.claims[i].id.pid == w.claims[j].id.pid)
  {
    Reached(cfg, start, steps);
    var w := Execute(cfg, start, steps);
    RecordIdentifies(cfg, start, w);
    ClaimsIdentify(cfg, start.rec.started, w);
    hide Inv, Execute, Start;
  }

  lemma RecordIdentifies(cfg: Config, start: World, w: World)
    requires Start(cfg, start) && Inv(cfg, start.rec, w)
    ensures (w.rec.round == 0 <==> w.rec.term == 0) && (w.rec.round == 0 <==> w.rec.instance == 0)
    ensures w.rec.round == 0 <==> w.rec.phase == Initial
    ensures w.rec.round > 0 ==> 1 <= w.rec.term <= w.rec.round
    ensures |w.claims| == w.rec.round
  {
    hide ClaimsOk, CommitsOk, TimersOk, ProcessesOk, RegistryOk, Fold, Spaced;
    NewestClaim(cfg, start.rec, w);
    if w.claims != [] {
      assert ClaimOk(cfg, start.rec.started, w, |w.claims| - 1) by { LastClaimOk(cfg, start.rec, w); }
    }
  }

  lemma LastClaimOk(cfg: Config, initial: Record, w: World)
    requires Inv(cfg, initial, w) && w.claims != []
    ensures ClaimOk(cfg, initial.started, w, |w.claims| - 1)
  {
    hide ClaimOk;
  }

  // A process's own round never runs ahead of the shared one; equal rounds mean equal identities.
  lemma LocalRoundFollows(cfg: Config, start: World, steps: seq<Step>, pid: Pid)
    requires cfg.Valid() && Start(cfg, start)
    requires pid in Execute(cfg, start, steps).processes
    requires Execute(cfg, start, steps).processes[pid].probe.Some?
    ensures var w := Execute(cfg, start, steps);
      var p := w.processes[pid];
      && p.probe.value.round <= w.rec.round
      && (p.probe.value.round == w.rec.round > 0 ==> ProbeIdentity(p, p.probe.value) == IdentityOf(w.rec))
  {
    Reached(cfg, start, steps);
    hide Inv, Execute, Start;
    RoundFollows(cfg, start.rec, Execute(cfg, start, steps), pid);
  }

  lemma RoundFollows(cfg: Config, initial: Record, w: World, pid: Pid)
    requires Inv(cfg, initial, w) && pid in w.processes && w.processes[pid].probe.Some?
    ensures var p := w.processes[pid];
      && p.probe.value.round <= w.rec.round
      && (p.probe.value.round == w.rec.round > 0 ==> ProbeIdentity(p, p.probe.value) == IdentityOf(w.rec))
  {
    Known(cfg, initial, w, pid);
    hide Inv;
  }

  predicate Unfinished(w: World, p: Process) {
    && p.probe.Some? && (p.probe.value.active || p.probe.value.pending)
    && p.worker < |w.registrations| && Owns(p, p.probe.value, w.registrations[p.worker], w.rec)
  }

  // At any time of any run, a round that is unfinished or uncommitted and still in authority
  // is the one the record shows as preparing or in flight: its result is never refused for
  // the record's phase.
  lemma OwnRoundRunning(cfg: Config, start: World, steps: seq<Step>, pid: Pid)
    requires cfg.Valid() && Start(cfg, start)
    ensures var w := Execute(cfg, start, steps);
      pid in w.processes && Unfinished(w, w.processes[pid]) ==> Running(w.rec)
  {
    Reached(cfg, start, steps);
    var w := Execute(cfg, start, steps);
    if pid in w.processes {
      Known(cfg, start.rec, w, pid);
    }
  }
}
