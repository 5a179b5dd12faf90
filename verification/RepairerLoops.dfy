/** The repairer as the source runs it: recursive search over shared, mutable statistics. */
module RepairerLoops {
  import opened Values
  import opened RobotState
  import opened Skills
  import opened Registry
  import opened Repairer
  import opened RepairBounds

  class PlanRepairer {
    const reg: Skillset
    const limits: Limits
    var stats: Stats

    constructor (reg: Skillset, limits: Limits)
      ensures this.reg == reg && this.limits == limits && stats == NO_STATS
    {
      this.reg, this.limits, stats := reg, limits, NO_STATS;
    }

    function Ctx(now: real, excluded: set<string>): Context { Context(reg, limits, now, excluded) }

    /** Every call finds a duplicate-free path of exactly `depth - 1` facts. */
    method SearchFact(field: string, target: Value, s: State, path: set<Fact>, depth: nat,
                      now: real, excluded: set<string>)
      returns (found: Option<Found>)
      requires |path| + 1 == depth
      modifies this
      ensures Outcome(found, stats) ==
              Search(Ctx(now, excluded), field, target, s, path, depth, old(stats))
      decreases Left(Ctx(now, excluded), depth), 1
    {
      hide Achieve, FactSatisfied, SynthesizeCandidates, CandidateEvaluations, Proposal;
      ghost var c := Ctx(now, excluded);
      if FactSatisfied(s, field, target) {
        return Some(Found([], s));
      }
      var key := (field, target);
      if key in path {
        stats := stats.(cycles := stats.cycles + 1);
        return None;
      }
      if depth > limits.maxDepth {
        stats := stats.(depthHits := stats.depthHits + 1);
        return None;
      }
      if stats.expanded >= limits.maxExpansions {
        stats := stats.(expansionHits := stats.expansionHits + 1);
        return None;
      }
      stats := stats.(expanded := stats.expanded + 1);
      var candidates := FindCandidates(reg, field, target, s, "candidate", AUTHOR, excluded);
      ghost var all := TryCandidates(c, field, target, s, path + {key}, depth, candidates, None, stats);
      found := None;
      for i := 0 to |candidates|
        invariant all == TryCandidates(c, field, target, s, path + {key}, depth, candidates[i..], found, stats)
      {
        var candidate := candidates[i];
        assert candidates[i..][0] == candidate && candidates[i..][1..] == candidates[i + 1..];
        stats := stats.(considered := stats.considered + 1);
        var prefix := AchieveAll(CandidateEvaluations(Ctx(now, excluded), candidate, s), s, path + {key},
                                 depth, now, excluded);
        var proposal := Proposal(Ctx(now, excluded), field, target, candidate, prefix);
        if proposal.Some? && (found.None? || |proposal.value.steps| < |found.value.steps|) {
          found := proposal;
        }
      }
      assert candidates[|candidates|..] == [];
    }

    /** The failed preconditions of one candidate, each from where the previous search ended. */
    method AchieveAll(evals: seq<Evaluation>, s: State, path: set<Fact>, depth: nat, now: real,
                      excluded: set<string>)
      returns (found: Option<Found>)
      requires |path| == depth <= limits.maxDepth
      modifies this
      ensures Outcome(found, stats) ==
              Achieve(Ctx(now, excluded), evals, path, depth, Found([], s), old(stats))
      decreases Left(Ctx(now, excluded), depth), 0
    {
      ghost var c := Ctx(now, excluded);
      var prefix: seq<Step>, projected := [], s;
      for j := 0 to |evals|
        invariant Achieve(c, evals, path, depth, Found([], s), old(stats)) ==
                  Achieve(c, evals[j..], path, depth, Found(prefix, projected), stats)
      {
        var failure := evals[j];
        assert evals[j..][0] == failure && evals[j..][1..] == evals[j + 1..];
        if !failure.Satisfied() {
          var nested := SearchFact(failure.field, failure.expected, projected, path, depth + 1, now, excluded);
          if nested.None? {
            return None;
          }
          prefix, projected := prefix + nested.value.steps, nested.value.state;
        }
      }
      assert evals[|evals|..] == [];
      return Some(Found(prefix, projected));
    }

    method InsertRepairs(failure: Evaluation, repairs: seq<Step>, p: Progress, ghost c: Context)
      returns (r: Option<Progress>)
      requires c.reg == reg && c.limits == limits
      ensures r == InsertAll(c, failure, repairs, p)
    {
      var q := p;
      for k := 0 to |repairs|
        invariant InsertAll(c, failure, repairs, p) == InsertAll(c, failure, repairs[k..], q)
      {
        assert repairs[k..][0] == repairs[k] && repairs[k..][1..] == repairs[k + 1..];
        if q.serial + 1 > limits.maxInsertions {
          return None;
        }
        var repair := Renamed(repairs[k], q.serial + 1, failure);
        q := q.(steps := q.steps + [repair],
                goals := StepGoals(reg, q.goals, repair, q.sim),
                sim := Project(reg, q.sim, repair),
                serial := q.serial + 1);
      }
      assert repairs[|repairs|..] == [];
      return Some(q);
    }

    /** The failed preconditions of one original step. */
    method MendStep(evals: seq<Evaluation>, p: Progress, now: real, excluded: set<string>)
      returns (r: Option<Progress>)
      requires p.stats == stats
      modifies this
      ensures Attempt(r, stats) == MendAll(Ctx(now, excluded), evals, p)
      ensures r.Some? ==> r.value.stats == stats
    {
      ghost var c := Ctx(now, excluded);
      var q := p;
      for j := 0 to |evals|
        invariant q.stats == stats
        invariant MendAll(c, evals, p) == MendAll(c, evals[j..], q)
      {
        var failure := evals[j];
        assert evals[j..][0] == failure && evals[j..][1..] == evals[j + 1..];
        if !failure.Satisfied() {
          var found := SearchFact(failure.field, failure.expected, q.sim, {}, 1, now, excluded);
          if found.None? {
            return None;
          }
          var inserted := InsertRepairs(failure, found.value.steps, q, c);
          if inserted.None? {
            return None;
          }
          stats := stats.(selected := stats.selected + |found.value.steps|);
          q := inserted.value.(sim := found.value.state, stats := stats);
        }
      }
      assert evals[|evals|..] == [];
      return Some(q);
    }

    method RepairAll(steps: seq<Step>, s: State, now: real, excluded: set<string>)
      returns (r: Option<Progress>)
      modifies this
      ensures Attempt(r, stats) ==
              RepairSteps(Ctx(now, excluded), steps, Progress([], s, [], 0, NO_STATS))
    {
      stats := NO_STATS;
      ghost var c := Ctx(now, excluded);
      var p := Progress([], s, [], 0, NO_STATS);
      ghost var all := RepairSteps(c, steps, p);
      for i := 0 to |steps|
        invariant p.stats == stats
        invariant all == RepairSteps(c, steps[i..], p)
      {
        var original := steps[i];
        assert steps[i..][0] == original && steps[i..][1..] == steps[i + 1..];
        var skill := Lookup(reg, original.skill);
        if skill.None? {
          return None;
        }
        var evals := EvaluatePreconditions(skill.value, p.sim, original.arguments, now);
        var mended := MendStep(evals, p, now, excluded);
        if mended.None? {
          return None;
        }
        if !PreconditionsHold(skill.value, mended.value.sim, original.arguments, now) {
          return None;
        }
        p := Append(Ctx(now, excluded), original, mended.value);
      }
      assert steps[|steps|..] == [];
      return Some(p);
    }

    /** `repair`: the plan of the specification, and statistics that stay within the limits
        whether or not there is one. */
    method RepairPlan(plan: Plan, s: State, requiresStop: bool, now: real) returns (r: Option<Plan>)
      modifies this
      ensures r == Repair(reg, limits, now, plan, s, requiresStop)
      ensures stats == RepairAttempt(RepairContext(reg, limits, now, plan), plan, s, requiresStop).stats
      ensures stats.expanded <= limits.maxExpansions
      ensures stats.considered <= stats.expanded * |reg|
      ensures r.Some? ==> stats.selected <= limits.maxInsertions
    {
      stats := NO_STATS;
      RepairWithinBudget(RepairContext(reg, limits, now, plan), plan, s, requiresStop);
      if requiresStop {
        return None;
      }
      var p := RepairAll(plan.steps, s, now, plan.metadata.blocked);
      return if p.None? then None else Some(Repaired(plan, p.value));
    }
  }
}
