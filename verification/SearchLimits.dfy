/** What the search statistics tell: where they show no cycle and no limit hit, neither the limits
    nor the path on which facts were asked for had any part in the answer. */
module SearchLimits {
  import opened Values
  import opened RobotState
  import opened Skills
  import opened Registry
  import opened Repairer

  /** The same repair with no smaller depth and expansion limits. */
  predicate Larger(c: Context, d: Context) {
    && d == c.(limits := d.limits) && d.limits.maxInsertions == c.limits.maxInsertions
    && d.limits.maxDepth >= c.limits.maxDepth && d.limits.maxExpansions >= c.limits.maxExpansions
  }

  /** Counters only grow. */
  predicate Grown(a: Stats, b: Stats) {
    a.cycles <= b.cycles && a.depthHits <= b.depthHits && a.expansionHits <= b.expansionHits
  }

  /** None of the three reasons to refuse has been counted. */
  predicate Unhit(a: Stats, b: Stats) {
    a.cycles == b.cycles && a.depthHits == b.depthHits && a.expansionHits == b.expansionHits
  }

  /** A search answers without expanding when the fact holds, at no cost. Otherwise it refuses for
      one of three reasons, and the one counter that rises, by one, says which: the fact is being
      asked for already, too deep, or out of expansions. */
  lemma RefusalTold(c: Context, field: string, target: Value, s: State, path: set<Fact>, depth: nat, st: Stats)
    requires (field, target) in path || depth > c.limits.maxDepth || st.expanded >= c.limits.maxExpansions
    ensures var o := Search(c, field, target, s, path, depth, st);
            if Epistemic(s, field).status == Known && OptEq(Raw(s, field), Some(target)) then
              o.found == Some(Found([], s)) && o.stats == st
            else
              && o.found.None?
              && o.stats == st.(cycles := o.stats.cycles, depthHits := o.stats.depthHits,
                                expansionHits := o.stats.expansionHits)
              && o.stats.cycles == (if (field, target) in path then st.cycles + 1 else st.cycles)
              && o.stats.depthHits ==
                 (if (field, target) !in path && depth > c.limits.maxDepth then st.depthHits + 1 else st.depthHits)
              && o.stats.expansionHits ==
                 (if (field, target) !in path && depth <= c.limits.maxDepth then st.expansionHits + 1
                  else st.expansionHits)
  {
  }

  lemma {:induction false} SearchGrows(c: Context, field: string, target: Value, s: State, path: set<Fact>, depth: nat,
                                       st: Stats)
    ensures Grown(st, Search(c, field, target, s, path, depth, st).stats)
    decreases Left(c, depth), 2, 0
  {
    hide FactSatisfied, Candidates, TryCandidates;
    if depth <= c.limits.maxDepth {
      TryGrows(c, field, target, s, path + {(field, target)}, depth, Candidates(c, field, target, s), None,
               st.(expanded := st.expanded + 1));
    }
  }

  lemma {:induction false} TryGrows(c: Context, field: string, target: Value, s: State, path: set<Fact>, depth: nat,
                                    candidates: seq<Step>, best: Option<Found>, st: Stats)
    requires depth <= c.limits.maxDepth
    ensures Grown(st, TryCandidates(c, field, target, s, path, depth, candidates, best, st).stats)
    decreases Left(c, depth), 1, |candidates|
  {
    hide Search, Proposal, Better, CandidateEvaluations;
    if candidates != [] {
      var evals, st1 := CandidateEvaluations(c, candidates[0], s), st.(considered := st.considered + 1);
      AchieveGrows(c, evals, path, depth, Found([], s), st1);
      var prefix := Achieve(c, evals, path, depth, Found([], s), st1);
      TryGrows(c, field, target, s, path, depth, candidates[1..],
               Better(best, Proposal(c, field, target, candidates[0], prefix.found)), prefix.stats);
    }
  }

  lemma {:induction false} AchieveGrows(c: Context, evals: seq<Evaluation>, path: set<Fact>, depth: nat, done: Found,
                                        st: Stats)
    requires depth <= c.limits.maxDepth
    ensures Grown(st, Achieve(c, evals, path, depth, done, st).stats)
    decreases Left(c, depth), 0, |evals|
  {
    hide Search;
    if evals != [] {
      if evals[0].Satisfied() {
        AchieveGrows(c, evals[1..], path, depth, done, st);
      } else {
        SearchGrows(c, evals[0].field, evals[0].expected, done.state, path, depth + 1, st);
        var o := Search(c, evals[0].field, evals[0].expected, done.state, path, depth + 1, st);
        if o.found.Some? {
          var f := o.found.value;
          AchieveGrows(c, evals[1..], path, depth, Found(done.steps + f.steps, f.state), o.stats);
        }
      }
    }
  }

  /** A search that counts no cycle and hits no limit gives the same answer, at the same cost,
      under all larger limits and on every part of its path. */
  lemma {:induction false} SearchUnlimited(c: Context, d: Context, field: string, target: Value, s: State,
                                           path: set<Fact>, part: set<Fact>, depth: nat, st: Stats)
    requires Larger(c, d) && part <= path
    requires Unhit(st, Search(c, field, target, s, path, depth, st).stats)
    ensures Search(d, field, target, s, part, depth, st) == Search(c, field, target, s, path, depth, st)
    decreases Left(c, depth), 2, 0
  {
    hide FactSatisfied, TryCandidates;
    if !FactSatisfied(s, field, target) {
      SameCandidates(c, d, field, target, s);
      TryUnlimited(c, d, field, target, s, path + {(field, target)}, part + {(field, target)}, depth,
                   Candidates(c, field, target, s), None, st.(expanded := st.expanded + 1));
    }
  }

  lemma SameCandidates(c: Context, d: Context, field: string, target: Value, s: State)
    requires Larger(c, d)
    ensures Candidates(d, field, target, s) == Candidates(c, field, target, s)
  {
  }

  lemma {:induction false} TryUnlimited(c: Context, d: Context, field: string, target: Value, s: State,
                                        path: set<Fact>, part: set<Fact>, depth: nat, candidates: seq<Step>,
                                        best: Option<Found>, st: Stats)
    requires Larger(c, d) && part <= path && depth <= c.limits.maxDepth
    requires Unhit(st, TryCandidates(c, field, target, s, path, depth, candidates, best, st).stats)
    ensures TryCandidates(d, field, target, s, part, depth, candidates, best, st) ==
            TryCandidates(c, field, target, s, path, depth, candidates, best, st)
    decreases Left(c, depth), 1, |candidates|
  {
    hide Search, Achieve, Better;
    if candidates != [] {
      var evals, st1 := CandidateEvaluations(c, candidates[0], s), st.(considered := st.considered + 1);
      var prefix := Achieve(c, evals, path, depth, Found([], s), st1);
      var next := Better(best, Proposal(c, field, target, candidates[0], prefix.found));
      AchieveGrows(c, evals, path, depth, Found([], s), st1);
      TryGrows(c, field, target, s, path, depth, candidates[1..], next, prefix.stats);
      AchieveUnlimited(c, d, evals, path, part, depth, Found([], s), st1);
      TryUnlimited(c, d, field, target, s, path, part, depth, candidates[1..], next, prefix.stats);
    }
  }

  lemma {:induction false} AchieveUnlimited(c: Context, d: Context, evals: seq<Evaluation>, path: set<Fact>,
                                            part: set<Fact>, depth: nat, done: Found, st: Stats)
    requires Larger(c, d) && part <= path && depth <= c.limits.maxDepth
    requires Unhit(st, Achieve(c, evals, path, depth, done, st).stats)
    ensures Achieve(d, evals, part, depth, done, st) == Achieve(c, evals, path, depth, done, st)
    decreases Left(c, depth), 0, |evals|
  {
    hide Search;
    if evals != [] {
      if evals[0].Satisfied() {
        AchieveUnlimited(c, d, evals[1..], path, part, depth, done, st);
      } else {
        var o := Search(c, evals[0].field, evals[0].expected, done.state, path, depth + 1, st);
        SearchGrows(c, evals[0].field, evals[0].expected, done.state, path, depth + 1, st);
        if o.found.Some? {
          var f := o.found.value;
          AchieveGrows(c, evals[1..], path, depth, Found(done.steps + f.steps, f.state), o.stats);
          AchieveUnlimited(c, d, evals[1..], path, part, depth, Found(done.steps + f.steps, f.state), o.stats);
        }
        SearchUnlimited(c, d, evals[0].field, evals[0].expected, done.state, path, part, depth + 1, st);
      }
    }
  }

  // ---- A whole repair -------------------------------------------------------------------------------------

  lemma {:induction false} InsertAllSame(c: Context, d: Context, failure: Evaluation, repairs: seq<Step>, p: Progress)
    requires Larger(c, d)
    ensures InsertAll(d, failure, repairs, p) == InsertAll(c, failure, repairs, p)
    decreases |repairs|
  {
    if repairs != [] { InsertAllSame(c, d, failure, repairs[1..], Insert(c, failure, repairs[0], p)); }
  }

  lemma MendUnlimited(c: Context, d: Context, failure: Evaluation, p: Progress)
    requires Larger(c, d)
    ensures Grown(p.stats, Mend(c, failure, p).stats)
    ensures Unhit(p.stats, Mend(c, failure, p).stats) ==> Mend(d, failure, p) == Mend(c, failure, p)
  {
    hide Search, InsertAll;
    var o := Search(c, failure.field, failure.expected, p.sim, {}, 1, p.stats);
    SearchGrows(c, failure.field, failure.expected, p.sim, {}, 1, p.stats);
    if Unhit(p.stats, o.stats) {
      SearchUnlimited(c, d, failure.field, failure.expected, p.sim, {}, {}, 1, p.stats);
      if o.found.Some? { InsertAllSame(c, d, failure, o.found.value.steps, p); }
    }
  }

  lemma MendKeepsStats(c: Context, failure: Evaluation, p: Progress)
    ensures var a := Mend(c, failure, p); a.progress.Some? ==> a.progress.value.stats == a.stats
  {
  }

  lemma {:induction false} MendAllUnlimited(c: Context, d: Context, evals: seq<Evaluation>, p: Progress)
    requires Larger(c, d)
    ensures var a := MendAll(c, evals, p);
            && Grown(p.stats, a.stats) && (a.progress.Some? ==> a.progress.value.stats == a.stats)
            && (Unhit(p.stats, a.stats) ==> MendAll(d, evals, p) == a)
    decreases |evals|
  {
    hide Mend;
    if evals != [] {
      if evals[0].Satisfied() {
        MendAllUnlimited(c, d, evals[1..], p);
      } else {
        MendUnlimited(c, d, evals[0], p);
        MendKeepsStats(c, evals[0], p);
        var a := Mend(c, evals[0], p);
        if a.progress.Some? { MendAllUnlimited(c, d, evals[1..], a.progress.value); }
      }
    }
  }

  lemma {:induction false} RepairStepsUnlimited(c: Context, d: Context, steps: seq<Step>, p: Progress)
    requires Larger(c, d)
    ensures var a := RepairSteps(c, steps, p);
            && Grown(p.stats, a.stats)
            && (Unhit(p.stats, a.stats) ==> RepairSteps(d, steps, p) == a)
    decreases |steps|
  {
    hide MendAll, PreconditionsHold, EvaluatePreconditions, StepGoals, Project;
    if steps != [] && Knows(c.reg, steps[0].skill) {
      var sk := Lookup(c.reg, steps[0].skill).value;
      var evals := EvaluatePreconditions(sk, p.sim, steps[0].arguments, c.now);
      MendAllUnlimited(c, d, evals, p);
      var a := MendAll(c, evals, p);
      if a.progress.Some? && PreconditionsHold(sk, a.progress.value.sim, steps[0].arguments, c.now) {
        RepairStepsUnlimited(c, d, steps[1..], Append(c, steps[0], a.progress.value));
      }
    }
  }

  /** What a repair's statistics say of its failure, or success: unless they show a cycle, a depth
      hit or an expansion hit, the repair comes out the same under all larger depth and expansion
      limits. */
  lemma UnhitRepairIsFinal(reg: Skillset, limits: Limits, more: Limits, now: real, plan: Plan, s: State,
                           requiresStop: bool)
    requires more.maxInsertions == limits.maxInsertions
    requires more.maxDepth >= limits.maxDepth && more.maxExpansions >= limits.maxExpansions
    ensures var c := RepairContext(reg, limits, now, plan);
            var a := RepairAttempt(c, plan, s, requiresStop);
            a.stats.cycles == 0 && a.stats.depthHits == 0 && a.stats.expansionHits == 0 ==>
              && RepairAttempt(RepairContext(reg, more, now, plan), plan, s, requiresStop) == a
              && Repair(reg, more, now, plan, s, requiresStop) == Repair(reg, limits, now, plan, s, requiresStop)
  {
    hide RepairSteps;
    var c, d := RepairContext(reg, limits, now, plan), RepairContext(reg, more, now, plan);
    if !requiresStop { RepairStepsUnlimited(c, d, plan.steps, Progress([], s, [], 0, NO_STATS)); }
  }
}
