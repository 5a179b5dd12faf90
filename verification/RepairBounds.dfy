/** Resource bounds of one whole repair. */
module RepairBounds {
  import opened Values
  import opened RobotState
  import opened Skills
  import opened Registry
  import opened Repairer

  /** From `a` to `b` the expansion budget holds, and every expansion accounts for at most
      one considered candidate per registered skill; `slack` candidates are still owed. */
  predicate Spent(c: Context, a: Stats, b: Stats, slack: int) {
    && a.selected == b.selected
    && a.expanded <= b.expanded
    && (a.expanded <= c.limits.maxExpansions ==> b.expanded <= c.limits.maxExpansions)
    && b.considered <= a.considered + slack + Times(b.expanded - a.expanded, |c.reg|)
  }

  lemma SpentTwice(c: Context, x: Stats, y: Stats, z: Stats, p: int, q: int)
    requires Spent(c, x, y, p) && Spent(c, y, z, q)
    ensures Spent(c, x, z, p + q)
  {
    TimesAdd(y.expanded - x.expanded, z.expanded - y.expanded, |c.reg|);
  }

  lemma {:induction false} SearchSpends(
    c: Context, field: string, target: Value, s: State, path: set<Fact>, depth: nat, st: Stats)
    ensures Spent(c, st, Search(c, field, target, s, path, depth, st).stats, 0)
    decreases Left(c, depth), 2, 0
  {
    hide TryCandidates, SynthesizeCandidates, FactSatisfied;
    if !FactSatisfied(s, field, target) && (field, target) !in path &&
       depth <= c.limits.maxDepth && st.expanded < c.limits.maxExpansions
    {
      var candidates := Candidates(c, field, target, s);
      var st1 := st.(expanded := st.expanded + 1);
      CandidateCount(c.reg, field, target, s, "candidate", AUTHOR, c.excluded);
      TryCandidatesSpends(c, field, target, s, path + {(field, target)}, depth, candidates, None, st1);
      assert Spent(c, st, st1, -|c.reg|);
      SpentTwice(c, st, st1, Search(c, field, target, s, path, depth, st).stats, -|c.reg|, |candidates|);
    }
  }

  lemma {:induction false} TryCandidatesSpends(
    c: Context, field: string, target: Value, s: State, path: set<Fact>, depth: nat,
    candidates: seq<Step>, best: Option<Found>, st: Stats)
    requires depth <= c.limits.maxDepth
    ensures Spent(c, st, TryCandidates(c, field, target, s, path, depth, candidates, best, st).stats,
                  |candidates|)
    decreases Left(c, depth), 1, |candidates|
  {
    hide Search, Achieve, Proposal, Better, CandidateEvaluations;
    if candidates != [] {
      var evals := CandidateEvaluations(c, candidates[0], s);
      var st1 := st.(considered := st.considered + 1);
      var prefix := Achieve(c, evals, path, depth, Found([], s), st1);
      var next := Better(best, Proposal(c, field, target, candidates[0], prefix.found));
      AchieveSpends(c, evals, path, depth, Found([], s), st1);
      TryCandidatesSpends(c, field, target, s, path, depth, candidates[1..], next, prefix.stats);
      assert Spent(c, st, st1, 1);
      SpentTwice(c, st, st1, prefix.stats, 1, 0);
      SpentTwice(c, st, prefix.stats,
                 TryCandidates(c, field, target, s, path, depth, candidates, best, st).stats,
                 1, |candidates| - 1);
    }
  }

  lemma {:induction false} AchieveSpends(
    c: Context, evals: seq<Evaluation>, path: set<Fact>, depth: nat, done: Found, st: Stats)
    requires depth <= c.limits.maxDepth
    ensures Spent(c, st, Achieve(c, evals, path, depth, done, st).stats, 0)
    decreases Left(c, depth), 0, |evals|
  {
    if evals == [] {
    } else if evals[0].Satisfied() {
      AchieveSpends(c, evals[1..], path, depth, done, st);
    } else {
      var nested := Search(c, evals[0].field, evals[0].expected, done.state, path, depth + 1, st);
      SearchSpends(c, evals[0].field, evals[0].expected, done.state, path, depth + 1, st);
      if nested.found.Some? {
        var f := nested.found.value;
        var more := Found(done.steps + f.steps, f.state);
        AchieveSpends(c, evals[1..], path, depth, more, nested.stats);
        SpentTwice(c, st, nested.stats, Achieve(c, evals, path, depth, done, st).stats, 0, 0);
      }
    }
  }

  /** Counters after any part of a repair, successful or not. */
  predicate WithinBudget(c: Context, st: Stats) {
    && st.expanded <= c.limits.maxExpansions
    && st.considered <= Times(st.expanded, |c.reg|)
  }

  lemma BudgetKept(c: Context, a: Stats, b: Stats)
    requires WithinBudget(c, a) && Spent(c, a, b, 0)
    ensures WithinBudget(c, b)
  {
    TimesAdd(a.expanded, b.expanded - a.expanded, |c.reg|);
  }

  lemma {:induction false} InsertAllStats(c: Context, failure: Evaluation, repairs: seq<Step>, p: Progress)
    ensures var q := InsertAll(c, failure, repairs, p);
            q.Some? ==> && q.value.stats == p.stats
                        && q.value.serial == p.serial + |repairs|
                        && (repairs != [] ==> q.value.serial <= c.limits.maxInsertions)
    decreases |repairs|
  {
    if repairs != [] && p.serial + 1 <= c.limits.maxInsertions {
      InsertAllStats(c, failure, repairs[1..], Insert(c, failure, repairs[0], p));
    }
  }

  /** The progress agrees with the counters it carries. */
  predicate Accounted(c: Context, a: Attempt) {
    && WithinBudget(c, a.stats)
    && (a.progress.Some? ==>
          var p := a.progress.value;
          p.stats == a.stats && p.serial == a.stats.selected <= c.limits.maxInsertions)
  }

  lemma MendAccounts(c: Context, failure: Evaluation, p: Progress)
    requires Accounted(c, Attempt(Some(p), p.stats))
    ensures Accounted(c, Mend(c, failure, p))
  {
    var o := Search(c, failure.field, failure.expected, p.sim, {}, 1, p.stats);
    SearchSpends(c, failure.field, failure.expected, p.sim, {}, 1, p.stats);
    BudgetKept(c, p.stats, o.stats);
    if o.found.Some? {
      InsertAllStats(c, failure, o.found.value.steps, p);
    }
  }

  lemma {:induction false} MendAllAccounts(c: Context, evals: seq<Evaluation>, p: Progress)
    requires Accounted(c, Attempt(Some(p), p.stats))
    ensures Accounted(c, MendAll(c, evals, p))
    decreases |evals|
  {
    if evals == [] {
    } else if evals[0].Satisfied() {
      MendAllAccounts(c, evals[1..], p);
    } else {
      MendAccounts(c, evals[0], p);
      var a := Mend(c, evals[0], p);
      if a.progress.Some? { MendAllAccounts(c, evals[1..], a.progress.value); }
    }
  }

  lemma {:induction false} RepairStepsAccounts(c: Context, steps: seq<Step>, p: Progress)
    requires Accounted(c, Attempt(Some(p), p.stats))
    ensures Accounted(c, RepairSteps(c, steps, p))
    decreases |steps|
  {
    if steps != [] && Knows(c.reg, steps[0].skill) {
      var sk := Lookup(c.reg, steps[0].skill).value;
      var evals := EvaluatePreconditions(sk, p.sim, steps[0].arguments, c.now);
      MendAllAccounts(c, evals, p);
      var a := MendAll(c, evals, p);
      if a.progress.Some? { RepairStepsAccounts(c, steps[1..], Append(c, steps[0], a.progress.value)); }
    }
  }

  /** One whole repair, whether it succeeds or gives up: never more expansions than allowed,
      never more candidates than expansions times registered skills, and as many inserted
      steps as the statistics say, within the insertion limit. */
  lemma RepairWithinBudget(c: Context, plan: Plan, s: State, requiresStop: bool)
    ensures var a := RepairAttempt(c, plan, s, requiresStop);
            && a.stats.expanded <= c.limits.maxExpansions
            && a.stats.considered <= a.stats.expanded * |c.reg|
            && (a.progress.Some? ==>
                  a.progress.value.serial == a.stats.selected <= c.limits.maxInsertions)
  {
    var p := Progress([], s, [], 0, NO_STATS);
    assert Accounted(c, Attempt(Some(p), NO_STATS));
    RepairStepsAccounts(c, plan.steps, p);
  }
}
