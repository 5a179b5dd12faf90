/** Goal-directed replanning makes progress: a skill given up on stays given up on. */
module RunReplanning {
  import opened Values
  import opened RobotState
  import opened Registry
  import opened Grounder
  import opened Repairer
  import opened RepairSoundness
  import opened RepairTheorems
  import opened Replanner
  import opened Executor
  import opened Transitions
  import opened RunSafety

  // ---- Skills of a repaired plan --------------------------------------------------------------

  lemma {:induction false} WeaveSkills(c: Context, blocks: seq<seq<Step>>, originals: seq<Step>)
    requires |blocks| == |originals|
    requires forall b, r :: b in blocks && r in b ==> Inserted(c, r)
    ensures forall p :: p in Weave(blocks, originals) ==>
              p.skill !in c.excluded || exists o :: o in originals && o.skill == p.skill
    decreases |originals|
  {
    if originals != [] {
      assert blocks[0] in blocks;
      assert forall b :: b in blocks[1..] ==> b in blocks;
      WeaveSkills(c, blocks[1..], originals[1..]);
    }
  }

  predicate AvoidsBlocked(plan: Plan) {
    forall p :: p in plan.steps ==> p.skill !in plan.metadata.blocked
  }

  /** Repair never brings in a blocked skill. */
  lemma RepairAvoidsBlocked(reg: Skillset, limits: Limits, now: real, plan: Plan, s: State, stop: bool)
    requires WellFormedSkillset(reg) && AvoidsBlocked(plan)
    requires forall o :: o in plan.steps && Knows(reg, o.skill) ==> Callable(reg, o)
    ensures var r := Repair(reg, limits, now, plan, s, stop);
            r.Some? ==> AvoidsBlocked(r.value) && r.value.metadata.blocked == plan.metadata.blocked
  {
    if !stop {
      var c := RepairContext(reg, limits, now, plan);
      var p := Progress([], s, [], 0, NO_STATS);
      var blocks := RepairStepsSound(c, plan.steps, s, p);
      if RepairSteps(c, plan.steps, p).progress.Some? {
        WeaveSkills(c, blocks, plan.steps);
      }
    }
  }

  // ---- The invariant ------------------------------------------------------------------------------

  /** The executor's replanner is the goal-directed one. */
  ghost predicate GoalDirected(x: Setup) {
    && WellFormedSkillset(x.Reg())
    && x.config.replanner.Some?
    && forall p, s :: x.config.replanner.value(p, s) == Replan(x.Reg(), p, s)
  }

  lemma GoalDirectedIsWellFormed(x: Setup)
    requires GoalDirected(x)
    ensures WellFormedSkillset(x.Reg())
  {
  }

  /** From `at` on the skill is not dispatched. */
  predicate Retired(log: Log, a: Adoption) {
    forall k :: a.at <= k < |log| && log[k].Commanded? ==> log[k].skill != a.skill
  }

  function GivenUp(adopted: seq<Adoption>): set<string> { set a | a in adopted :: a.skill }

  predicate Known(x: Setup, a: Adoption) { Knows(x.Reg(), a.skill) }

  /** The blocked skills are those whose failure led to an adopted replan: registered, retired,
      all different, and none of them in the plan. */
  predicate Progressing(x: Setup, c: Control) {
    && AvoidsBlocked(c.plan)
    && |c.adopted| == c.replans <= x.config.maxReplans
    && c.plan.metadata.blocked == GivenUp(c.adopted)
    && (forall i :: 0 <= i < |c.adopted| ==>
          && Known(x, c.adopted[i])
          && Retired(c.log, c.adopted[i]))
    && (forall i, j :: 0 <= i < j < |c.adopted| ==> c.adopted[i].skill != c.adopted[j].skill)
  }

  lemma RetiredExtends(a: Log, b: Log, r: Adoption)
    requires Retired(a, r) && |a| <= |b| && b[..|a|] == a
    requires forall k :: |a| <= k < |b| && b[k].Commanded? ==> b[k].skill != r.skill
    ensures Retired(b, r)
  {
    forall k | r.at <= k < |b| && b[k].Commanded? ensures b[k].skill != r.skill {
      if k < |a| { assert a[k] == b[k]; }
    }
  }

  /** One iteration sends nothing or the current step, which is not blocked. */
  lemma AdvanceKeepsRetired(x: Setup, base: nat, c: Control)
    requires AtHead(x, base, c) && Progressing(x, c)
    ensures forall i :: 0 <= i < |c.adopted| ==> Retired(Advance(x, c).log, c.adopted[i])
  {
    hide Advance, Attempted;
    LogKinds(x, c);
    var a, b := Base(x, c), Advance(x, c).log;
    forall i | 0 <= i < |c.adopted| ensures Retired(b, c.adopted[i]) {
      if c.mode.Inner? {
        AttemptLog(x, c);
        assert c.mode.step in c.plan.steps;
        RetiredExtends(c.log, a, c.adopted[i]);
      }
      RetiredExtends(a, b, c.adopted[i]);
    }
  }

  lemma ResuffixedAvoids(x: Setup, base: nat, c: Control, d: Control)
    requires WellFormedSkillset(x.Reg()) && AtHead(x, base, c) && AvoidsBlocked(c.plan) && Resuffixed(x, c, d)
    ensures AvoidsBlocked(d.plan)
  {
    hide Ground, Repair;
    var before := Look(x, c);
    var log := Saw(c, before).log;
    var remaining := Remaining(c);
    NoStopMeansCheckable(x.Reg(), x.Caps(), x.backend.clock(log, ForSuffix), remaining, before);
    RepairAvoidsBlocked(x.Reg(), x.config.limits, x.backend.clock(log, ForRepair), remaining, before, false);
    var suffix := d.plan.steps[c.index..];
    assert d.plan.steps == c.plan.steps[..c.index] + suffix;
  }

  /** The failed plan contains the step that failed, whose skill is now blocked: the
      structural-change test of the replanner can never be what rejects a new plan. */
  lemma SignatureTestNeverFires(x: Setup, base: nat, c: Control, s: State)
    requires WellFormedSkillset(x.Reg()) && AtHead(x, base, c) && c.mode.Inner?
    ensures var failed := FailedPlan(Decided(Attempted(x, c), REPLAN), c.mode);
            var goals := failed.metadata.goals;
            Replan(x.Reg(), failed, s).Some? <==>
              goals.Some? && goals.value != [] &&
              GoalSteps(x.Reg(), goals.value, s, failed.revision, failed.metadata.blocked, []).Some?
  {
    var failed := FailedPlan(Decided(Attempted(x, c), REPLAN), c.mode);
    assert c.mode.step in failed.steps && c.mode.step.skill in failed.metadata.blocked;
    ReplanAvoidsBlocked(x.Reg(), failed, s);
  }

  lemma VettedAvoids(x: Setup, e: Control, p: Plan, adopted: Plan)
    requires WellFormedSkillset(x.Reg()) && Vetted(x, e, p, adopted)
    requires AvoidsBlocked(p) && p.metadata.goals.Some?
    requires forall o :: o in p.steps ==> Callable(x.Reg(), o)
    ensures AvoidsBlocked(adopted) && adopted.metadata.blocked == p.metadata.blocked
  {
    hide Ground, Repair;
    var e1 := Saw(e, Look(x, e));
    var s2 := Look(x, e1);
    var e2 := Saw(e1, s2);
    var report := Ground(x.Reg(), x.Caps(), x.backend.clock(e2.log, ForGround), p, s2);
    assert WithGoalState(x.Reg(), p, Look(x, e)) == p;
    var s3 := Look(x, e2);
    RepairAvoidsBlocked(x.Reg(), x.config.limits, x.backend.clock(Saw(e2, s3).log, ForRepair), p, s3,
                        report.RequiresStop());
  }

  lemma ReplannedAvoids(x: Setup, base: nat, c: Control, d: Control)
    requires GoalDirected(x) && AtHead(x, base, c) && c.mode.Inner? && Replanned(x, c, d)
    ensures AvoidsBlocked(d.plan)
    ensures d.plan.metadata.blocked == c.plan.metadata.blocked + {c.mode.skill.name}
  {
    hide Vetted, Replan, Look;
    var e := Decided(Attempted(x, c), REPLAN);
    var failed := FailedPlan(e, c.mode);
    var s := Look(x, e);
    ReplanAvoidsBlocked(x.Reg(), failed, s);
    var q := Replan(x.Reg(), failed, s).value;
    assert q.metadata.goals.Some? by { ReplanNeedsGoals(x.Reg(), failed, s); }
    VettedAvoids(x, Saw(e, s), q, d.plan);
  }

  lemma ReplanNeedsGoals(reg: Skillset, failed: Plan, s: State)
    ensures Replan(reg, failed, s).Some? ==> failed.metadata.goals.Some?
  {
  }

  lemma ReplanKeepsProgress(x: Setup, base: nat, c: Control, d: Control)
    requires GoalDirected(x) && AtHead(x, base, c) && Progressing(x, c) && Replanned(x, c, d)
    requires forall i :: 0 <= i < |c.adopted| ==> Retired(d.log, c.adopted[i])
    ensures Progressing(x, d)
  {
    hide GoalDirected, FromReplanner;
    ReplannedAvoids(x, base, c, d);
    AttemptCounts(x, c);
    var n := |c.adopted|;
    assert d.adopted[n].skill == c.mode.skill.name == c.mode.step.skill;
    assert c.mode.step in c.plan.steps;
    assert forall i :: 0 <= i < n ==> d.adopted[i] == c.adopted[i];
  }

  lemma ProgressKept(x: Setup, base: nat, c: Control)
    requires GoalDirected(x) && AtHead(x, base, c) && Progressing(x, c)
    ensures Progressing(x, Advance(x, c))
  {
    hide Advance, GoalDirected;
    AdvanceKinds(x, c);
    AdvanceKeepsRetired(x, base, c);
    var d := Advance(x, c);
    if c.mode.Inner? {
      AttemptCounts(x, c);
      if Replanned(x, c, d) { ReplanKeepsProgress(x, base, c, d); }
    } else if c.mode.Outer? {
      if Resuffixed(x, c, d) {
        GoalDirectedIsWellFormed(x);
        ResuffixedAvoids(x, base, c, d);
      }
    }
  }

  lemma {:induction false} ProgressAlways(x: Setup, base: nat, c: Control, n: nat)
    requires GoalDirected(x) && AtHead(x, base, c) && Progressing(x, c)
    ensures AtHead(x, base, Iterate(x, c, n)) && Progressing(x, Iterate(x, c, n))
  {
    hide Advance, GoalDirected, AtHead, Progressing;
    if n > 0 {
      ProgressAlways(x, base, c, n - 1);
      AtHeadKept(x, base, Iterate(x, c, n - 1));
      ProgressKept(x, base, Iterate(x, c, n - 1));
    }
  }

  function Names(reg: Skillset): set<string> { set sk | sk in reg :: sk.name }

  lemma {:induction false} NamesSize(reg: Skillset)
    ensures |Names(reg)| <= |reg|
  {
    if reg != [] {
      NamesSize(reg[1..]);
      assert Names(reg) == {reg[0].name} + Names(reg[1..]) by { assert reg == [reg[0]] + reg[1..]; }
    }
  }

  lemma {:induction false} GivenUpSize(adopted: seq<Adoption>)
    requires forall i, j :: 0 <= i < j < |adopted| ==> adopted[i].skill != adopted[j].skill
    ensures |GivenUp(adopted)| == |adopted|
  {
    if adopted != [] {
      var n := |adopted| - 1;
      GivenUpSize(adopted[..n]);
      assert GivenUp(adopted) == GivenUp(adopted[..n]) + {adopted[n].skill} by {
        assert adopted == adopted[..n] + [adopted[n]];
      }
    }
  }

  lemma {:induction false} SubsetSize(a: set<string>, b: set<string>)
    requires a <= b
    ensures |a| <= |b|
  {
    if a != {} {
      var e :| e in a;
      SubsetSize(a - {e}, b - {e});
    }
  }

  lemma ProgressBound(x: Setup, c: Control)
    requires Progressing(x, c)
    ensures |c.plan.metadata.blocked| == c.replans <= |x.Reg()|
  {
    GivenUpSize(c.adopted);
    forall e | e in GivenUp(c.adopted) ensures e in Names(x.Reg()) {
      var a :| a in c.adopted && a.skill == e;
      assert Known(x, a);
    }
    SubsetSize(GivenUp(c.adopted), Names(x.Reg()));
    NamesSize(x.Reg());
  }

  /** Replan progress. With the goal-directed replanner and nothing blocked at first, in every
      run against any backend: a skill whose failure led to an adopted replan is never
      dispatched again, not even by a later repair; each adopted replan blocks one more
      registered skill; so there are at most min(maxReplans, registered skills) of them. */
  lemma ReplansMakeProgress(x: Setup, plan: Plan, log: Log, last: Option<string>, n: nat)
    requires GoalDirected(x) && plan.metadata.blocked == {}
    ensures var c := After(x, plan, log, last, n);
            && (forall i :: 0 <= i < |c.adopted| ==> Retired(c.log, c.adopted[i]))
            && c.plan.metadata.blocked == GivenUp(c.adopted)
            && |GivenUp(c.adopted)| == |c.adopted| == c.replans
            && c.replans <= x.config.maxReplans && c.replans <= |x.Reg()|
  {
    hide Start, Advance, GoalDirected;
    StartFresh(x, plan, log, last);
    var c := Start(x, plan, log, last);
    assert Progressing(x, c);
    ProgressAlways(x, |log|, c, n);
    ProgressBound(x, After(x, plan, log, last, n));
  }
}
