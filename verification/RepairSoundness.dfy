/** The repair search is sound against the grounder. */
module RepairSoundness {
  import opened Values
  import opened RobotState
  import opened Templates
  import opened Skills
  import opened Registry
  import opened Repairer

  /** Every step is callable and its preconditions hold where it runs, and the run ends in `t`. */
  predicate Runs(c: Context, s: State, steps: seq<Step>, t: State)
    decreases |steps|
  {
    if steps == [] then s == t
    else
      && Callable(c.reg, steps[0])
      && StepHolds(c.reg, s, steps[0], c.now)
      && Runs(c, Project(c.reg, s, steps[0]), steps[1..], t)
  }

  lemma {:induction false} RunsConcat(c: Context, s: State, a: seq<Step>, t: State, b: seq<Step>, u: State)
    requires Runs(c, s, a, t) && Runs(c, t, b, u)
    ensures Runs(c, s, a + b, u)
    decreases |a|
  {
    if a == [] {
      assert a + b == b;
    } else {
      assert (a + b)[1..] == a[1..] + b;
      RunsConcat(c, Project(c.reg, s, a[0]), a[1..], t, b, u);
    }
  }

  lemma RunsOne(c: Context, s: State, step: Step)
    requires Callable(c.reg, step) && StepHolds(c.reg, s, step, c.now)
    ensures Runs(c, s, [step], Project(c.reg, s, step))
  {
    assert Runs(c, Project(c.reg, s, step), [step][1..], Project(c.reg, s, step));
  }

  /** A step the search may produce. */
  predicate Admissible(c: Context, step: Step) {
    && Callable(c.reg, step)
    && step.skill !in c.excluded
    && step.parallelGroup.None?
    && |step.expectedEffect| == 1
  }

  predicate SoundFrom(c: Context, s: State, f: Found) {
    Runs(c, s, f.steps, f.state) && forall p :: p in f.steps ==> Admissible(c, p)
  }

  predicate Establishes(c: Context, field: string, target: Value, s: State, best: Option<Found>) {
    best.Some? ==> SoundFrom(c, s, best.value) && FactSatisfied(best.value.state, field, target)
  }

  lemma CandidatesAdmissible(c: Context, field: string, target: Value, s: State)
    requires WellFormedSkillset(c.reg)
    ensures forall p :: p in Candidates(c, field, target, s) ==> Admissible(c, p)
  {
    forall p | p in Candidates(c, field, target, s) ensures Admissible(c, p) {
      CandidateCallable(c.reg, field, target, s, "candidate", AUTHOR, c.excluded, p);
      CandidateShape(c.reg, field, target, s, "candidate", AUTHOR, c.excluded, p);
    }
  }

  lemma ProposalSound(c: Context, field: string, target: Value, s: State, candidate: Step, prefix: Option<Found>)
    requires Admissible(c, candidate)
    requires prefix.Some? ==> SoundFrom(c, s, prefix.value)
    ensures Establishes(c, field, target, s, Proposal(c, field, target, candidate, prefix))
  {
    var proposal := Proposal(c, field, target, candidate, prefix);
    if proposal.Some? {
      var f := prefix.value;
      RunsOne(c, f.state, candidate);
      RunsConcat(c, s, f.steps, f.state, [candidate], proposal.value.state);
    }
  }

  lemma EmptyEstablishes(c: Context, field: string, target: Value, s: State)
    ensures Establishes(c, field, target, s, None)
    ensures FactSatisfied(s, field, target) ==> Establishes(c, field, target, s, Some(Found([], s)))
  {
  }

  /** Whatever the search returns replays from the start state, precondition by
      precondition, to the state it reports, and that state satisfies the fact. */
  lemma {:induction false} SearchSound(
    c: Context, field: string, target: Value, s: State, path: set<Fact>, depth: nat, st: Stats)
    requires WellFormedSkillset(c.reg)
    ensures Establishes(c, field, target, s, Search(c, field, target, s, path, depth, st).found)
    decreases Left(c, depth), 2, 0
  {
    hide TryCandidates, Candidates, FactSatisfied, SoundFrom, Admissible;
    hide Establishes;
    EmptyEstablishes(c, field, target, s);
    if !FactSatisfied(s, field, target) && (field, target) !in path &&
       depth <= c.limits.maxDepth && st.expanded < c.limits.maxExpansions
    {
      var candidates := Candidates(c, field, target, s);
      CandidatesAdmissible(c, field, target, s);
      TryCandidatesSound(c, field, target, s, path + {(field, target)}, depth, candidates, None,
                         st.(expanded := st.expanded + 1));
    }
  }

  lemma {:induction false} TryCandidatesSound(
    c: Context, field: string, target: Value, s: State, path: set<Fact>, depth: nat,
    candidates: seq<Step>, best: Option<Found>, st: Stats)
    requires WellFormedSkillset(c.reg) && depth <= c.limits.maxDepth
    requires forall p :: p in candidates ==> Admissible(c, p)
    requires Establishes(c, field, target, s, best)
    ensures Establishes(c, field, target, s,
              TryCandidates(c, field, target, s, path, depth, candidates, best, st).found)
    decreases Left(c, depth), 1, |candidates|
  {
    hide Search, Achieve, Proposal, Candidates, SoundFrom, CandidateEvaluations, FactSatisfied;
    if candidates != [] {
      var candidate := candidates[0];
      var evals := CandidateEvaluations(c, candidate, s);
      var st1 := st.(considered := st.considered + 1);
      var prefix := Achieve(c, evals, path, depth, Found([], s), st1);
      AchieveSound(c, s, evals, path, depth, Found([], s), st1);
      var proposal := Proposal(c, field, target, candidate, prefix.found);
      ProposalSound(c, field, target, s, candidate, prefix.found);
      TryCandidatesSound(c, field, target, s, path, depth, candidates[1..],
                         Better(best, proposal), prefix.stats);
    }
  }

  lemma {:induction false} AchieveSound(
    c: Context, s: State, evals: seq<Evaluation>, path: set<Fact>, depth: nat, done: Found, st: Stats)
    requires WellFormedSkillset(c.reg) && depth <= c.limits.maxDepth
    requires SoundFrom(c, s, done)
    ensures var o := Achieve(c, evals, path, depth, done, st);
            o.found.Some? ==> SoundFrom(c, s, o.found.value)
    decreases Left(c, depth), 0, |evals|
  {
    if evals == [] {
    } else if evals[0].Satisfied() {
      AchieveSound(c, s, evals[1..], path, depth, done, st);
    } else {
      var nested := Search(c, evals[0].field, evals[0].expected, done.state, path, depth + 1, st);
      SearchSound(c, evals[0].field, evals[0].expected, done.state, path, depth + 1, st);
      if nested.found.Some? {
        var f := nested.found.value;
        RunsConcat(c, s, done.steps, done.state, f.steps, f.state);
        AchieveSound(c, s, evals[1..], path, depth, Found(done.steps + f.steps, f.state), nested.stats);
      }
    }
  }

  // ---- From search results to repaired plans ------------------------------------------------

  /** A step the repair adds: admissible, renamed and attributed. */
  predicate Inserted(c: Context, step: Step) {
    && Admissible(c, step)
    && "repair_" <= step.id
    && step.insertedBy.Some? && "PlanRepairer:" <= step.insertedBy.value
  }

  lemma RunsExtend(c: Context, s: State, steps: seq<Step>, t: State, step: Step)
    requires Runs(c, s, steps, t) && Callable(c.reg, step) && StepHolds(c.reg, t, step, c.now)
    ensures Runs(c, s, steps + [step], Project(c.reg, t, step))
  {
    RunsOne(c, t, step);
    RunsConcat(c, s, steps, t, [step], Project(c.reg, t, step));
  }

  function RepairPrefix(serial: nat): string { "repair_" + Digits(serial) + "_" }

  /** The steps carry the serial numbers that follow `serial`. */
  predicate Numbered(steps: seq<Step>, serial: nat) {
    forall i :: 0 <= i < |steps| ==> RepairPrefix(serial + i + 1) <= steps[i].id
  }

  lemma NumberedConcat(a: seq<Step>, b: seq<Step>, serial: nat)
    requires Numbered(a, serial) && Numbered(b, serial + |a|)
    ensures Numbered(a + b, serial)
  {
    forall i | 0 <= i < |a + b| ensures RepairPrefix(serial + i + 1) <= (a + b)[i].id {
      if i >= |a| {
        assert RepairPrefix((serial + |a|) + (i - |a|) + 1) <= b[i - |a|].id;
      }
    }
  }

  /** `q` is `p` with `block` inserted, and still runs from the start state. */
  predicate Grew(c: Context, s: State, p: Progress, q: Progress, block: seq<Step>) {
    && Runs(c, s, q.steps, q.sim)
    && q.steps == p.steps + block
    && q.serial == p.serial + |block|
    && Numbered(block, p.serial)
    && forall r :: r in block ==> Inserted(c, r)
  }

  lemma GrewTwice(c: Context, s: State, p: Progress, q: Progress, r: Progress, a: seq<Step>, b: seq<Step>)
    requires Grew(c, s, p, q, a) && Grew(c, s, q, r, b)
    ensures Grew(c, s, p, r, a + b)
  {
    assert p.steps + (a + b) == (p.steps + a) + b;
    NumberedConcat(a, b, p.serial);
  }

  lemma SameCallHolds(c: Context, s: State, a: Step, b: Step)
    requires a.skill == b.skill && a.arguments == b.arguments
    ensures Callable(c.reg, a) == Callable(c.reg, b)
    ensures StepHolds(c.reg, s, a, c.now) == StepHolds(c.reg, s, b, c.now)
    ensures Project(c.reg, s, a) == Project(c.reg, s, b)
  {
  }

  lemma InsertSound(c: Context, failure: Evaluation, step: Step, s: State, p: Progress)
    requires Runs(c, s, p.steps, p.sim)
    requires Admissible(c, step) && StepHolds(c.reg, p.sim, step, c.now)
    ensures var q := Insert(c, failure, step, p);
            && Grew(c, s, p, q, [Renamed(step, p.serial + 1, failure)])
            && q.sim == Project(c.reg, p.sim, step)
  {
    hide Runs, Callable, StepHolds, StepGoals, Project, Digits;
    var repair := Renamed(step, p.serial + 1, failure);
    SameCallHolds(c, p.sim, step, repair);
    RunsExtend(c, s, p.steps, p.sim, repair);
    assert RepairPrefix(p.serial + 1) <= repair.id;
    assert Inserted(c, repair);
  }

  /** The step bears the field and the code of the failure it is for. */
  ghost predicate AttributedTo(step: Step, failure: Evaluation) {
    && step.insertedBy == Some("PlanRepairer:" + failure.code)
    && exists n: nat :: step.id == RepairPrefix(n) + failure.field
  }

  ghost predicate AllAttributed(block: seq<Step>, evals: seq<Evaluation>) {
    forall r :: r in block ==> exists e :: e in evals && AttributedTo(r, e)
  }

  /** Replaying the found steps under their new names reaches the state the search projected,
      so overwriting `projected` with it changes nothing. */
  lemma {:induction false} InsertAllSound(
    c: Context, failure: Evaluation, repairs: seq<Step>, s: State, t: State, p: Progress)
    returns (block: seq<Step>)
    requires Runs(c, s, p.steps, p.sim) && Runs(c, p.sim, repairs, t)
    requires forall r :: r in repairs ==> Admissible(c, r)
    ensures var q := InsertAll(c, failure, repairs, p);
            q.Some? ==> q.value.sim == t && Grew(c, s, p, q.value, block)
    ensures forall r :: r in block ==> AttributedTo(r, failure)
    decreases |repairs|
  {
    block := [];
    if repairs == [] {
      assert p.steps + block == p.steps;
    } else if p.serial + 1 <= c.limits.maxInsertions {
      InsertSound(c, failure, repairs[0], s, p);
      var next := Insert(c, failure, repairs[0], p);
      var rest := InsertAllSound(c, failure, repairs[1..], s, t, next);
      var q := InsertAll(c, failure, repairs[1..], next);
      var first := [Renamed(repairs[0], p.serial + 1, failure)];
      assert first[0].id == RepairPrefix(p.serial + 1) + failure.field;
      if q.Some? { GrewTwice(c, s, p, next, q.value, first, rest); }
      block := first + rest;
    }
  }

  lemma MendSound(c: Context, failure: Evaluation, s: State, p: Progress)
    returns (block: seq<Step>)
    requires WellFormedSkillset(c.reg) && Runs(c, s, p.steps, p.sim)
    ensures var a := Mend(c, failure, p);
            a.progress.Some? ==> Grew(c, s, p, a.progress.value, block)
    ensures forall r :: r in block ==> AttributedTo(r, failure)
  {
    block := [];
    var o := Search(c, failure.field, failure.expected, p.sim, {}, 1, p.stats);
    SearchSound(c, failure.field, failure.expected, p.sim, {}, 1, p.stats);
    if o.found.Some? {
      var f := o.found.value;
      block := InsertAllSound(c, failure, f.steps, s, f.state, p);
    }
  }

  lemma {:induction false} MendAllSound(c: Context, evals: seq<Evaluation>, s: State, p: Progress)
    returns (block: seq<Step>)
    requires WellFormedSkillset(c.reg) && Runs(c, s, p.steps, p.sim)
    ensures var a := MendAll(c, evals, p);
            a.progress.Some? ==> Grew(c, s, p, a.progress.value, block)
    ensures AllAttributed(block, evals)
    decreases |evals|
  {
    hide Grew, AttributedTo, Runs, Mend;
    block := [];
    if evals == [] {
      NothingGrew(c, s, p);
    } else if evals[0].Satisfied() {
      block := MendAllSound(c, evals[1..], s, p);
    } else {
      var first := MendSound(c, evals[0], s, p);
      var a := Mend(c, evals[0], p);
      if a.progress.Some? {
        var q := a.progress.value;
        GrewRuns(c, s, p, q, first);
        var rest := MendAllSound(c, evals[1..], s, q);
        var b := MendAll(c, evals[1..], q);
        if b.progress.Some? { GrewTwice(c, s, p, q, b.progress.value, first, rest); }
        block := first + rest;
      }
    }
  }

  lemma NothingGrew(c: Context, s: State, p: Progress)
    requires Runs(c, s, p.steps, p.sim)
    ensures Grew(c, s, p, p, [])
  {
    assert p.steps + [] == p.steps;
  }

  lemma GrewRuns(c: Context, s: State, p: Progress, q: Progress, block: seq<Step>)
    requires Grew(c, s, p, q, block)
    ensures Runs(c, s, q.steps, q.sim)
  {
  }

  /** The original steps in order, each behind the block inserted for it, only ungrouped. */
  function Weave(blocks: seq<seq<Step>>, originals: seq<Step>): seq<Step>
    requires |blocks| == |originals|
    decreases |originals|
  {
    if originals == [] then []
    else blocks[0] + [Ungrouped(originals[0])] + Weave(blocks[1..], originals[1..])
  }

  /** All inserted steps, in order. */
  function Flat(blocks: seq<seq<Step>>): (r: seq<Step>)
    ensures forall p :: p in r <==> exists b :: b in blocks && p in b
  {
    if blocks == [] then []
    else
      assert forall b :: b in blocks <==> b == blocks[0] || b in blocks[1..];
      blocks[0] + Flat(blocks[1..])
  }

  function Total(blocks: seq<seq<Step>>): nat { |Flat(blocks)| }

  /** `q` is `p` with the originals woven in behind inserted blocks. */
  predicate Wove(c: Context, s: State, p: Progress, q: Progress, blocks: seq<seq<Step>>, originals: seq<Step>) {
    && |blocks| == |originals|
    && Runs(c, s, q.steps, q.sim)
    && q.steps == p.steps + Weave(blocks, originals)
    && q.serial == p.serial + Total(blocks)
    && Numbered(Flat(blocks), p.serial)
    && forall b, r :: b in blocks && r in b ==> Inserted(c, r)
  }

  lemma WoveCons(c: Context, s: State, p: Progress, q: Progress, r: Progress,
                 block: seq<Step>, original: Step, blocks: seq<seq<Step>>, originals: seq<Step>)
    requires Grew(c, s, p, q, block)
    requires Wove(c, s, Append(c, original, q), r, blocks, originals)
    ensures Wove(c, s, p, r, [block] + blocks, [original] + originals)
  {
    var all := [block] + blocks;
    assert all[1..] == blocks && ([original] + originals)[1..] == originals;
    assert p.steps + (block + [Ungrouped(original)] + Weave(blocks, originals)) ==
           ((p.steps + block) + [Ungrouped(original)]) + Weave(blocks, originals);
    assert forall b :: b in all <==> b == block || b in blocks;
    assert Flat(all) == block + Flat(blocks);
    NumberedConcat(block, Flat(blocks), p.serial);
  }

  /** The step is there for an unmet precondition of the original one: it bears its code, and the
      field as the original call names it. */
  ghost predicate ServesStep(reg: Skillset, original: Step, r: Step) {
    Knows(reg, original.skill) &&
    exists p :: p in Lookup(reg, original.skill).value.preconditions &&
      r.insertedBy == Some("PlanRepairer:" + p.code) &&
      exists n: nat :: r.id == RepairPrefix(n) + Format(p.field, original.arguments)
  }

  ghost predicate EachServes(reg: Skillset, originals: seq<Step>, blocks: seq<seq<Step>>)
    requires |blocks| == |originals|
  {
    forall i, r :: 0 <= i < |originals| && r in blocks[i] ==> ServesStep(reg, originals[i], r)
  }

  lemma AttributedServes(c: Context, original: Step, s: State, block: seq<Step>)
    requires Knows(c.reg, original.skill)
    requires AllAttributed(block, EvaluatePreconditions(Lookup(c.reg, original.skill).value, s,
                                                         original.arguments, c.now))
    ensures forall r :: r in block ==> ServesStep(c.reg, original, r)
  {
    var sk := Lookup(c.reg, original.skill).value;
    var evals := EvaluatePreconditions(sk, s, original.arguments, c.now);
    forall r | r in block ensures ServesStep(c.reg, original, r) {
      var e :| e in evals && AttributedTo(r, e);
      var k :| 0 <= k < |evals| && evals[k] == e;
      assert sk.preconditions[k] in sk.preconditions;
    }
  }

  lemma EachServesCons(reg: Skillset, original: Step, originals: seq<Step>, block: seq<Step>, blocks: seq<seq<Step>>)
    requires |blocks| == |originals| && EachServes(reg, originals, blocks)
    requires forall r :: r in block ==> ServesStep(reg, original, r)
    ensures EachServes(reg, [original] + originals, [block] + blocks)
  {
    hide ServesStep;
  }

  lemma {:induction false} RepairStepsSound(c: Context, steps: seq<Step>, s: State, p: Progress)
    returns (blocks: seq<seq<Step>>)
    requires WellFormedSkillset(c.reg) && Runs(c, s, p.steps, p.sim)
    requires forall o :: o in steps && Knows(c.reg, o.skill) ==> Callable(c.reg, o)
    ensures var a := RepairSteps(c, steps, p);
            a.progress.Some? ==> Wove(c, s, p, a.progress.value, blocks, steps) && EachServes(c.reg, steps, blocks)
    decreases |steps|
  {
    hide Runs, MendAll, Grew, PreconditionsHold, WellFormedSkillset, Callable, Lookup, ServesStep, AllAttributed;
    blocks := [];
    if steps == [] {
      assert p.steps + [] == p.steps;
    } else if Knows(c.reg, steps[0].skill) {
      var sk := Lookup(c.reg, steps[0].skill).value;
      var evals := EvaluatePreconditions(sk, p.sim, steps[0].arguments, c.now);
      var block := MendAllSound(c, evals, s, p);
      var a := MendAll(c, evals, p);
      if a.progress.Some? && PreconditionsHold(sk, a.progress.value.sim, steps[0].arguments, c.now) {
        var q := a.progress.value;
        GrewRuns(c, s, p, q, block);
        AppendRuns(c, s, q, steps[0]);
        var next := Append(c, steps[0], q);
        var rest := RepairStepsSound(c, steps[1..], s, next);
        var b := RepairSteps(c, steps[1..], next);
        if b.progress.Some? {
          WoveCons(c, s, p, q, b.progress.value, block, steps[0], rest, steps[1..]);
          AttributedServes(c, steps[0], p.sim, block);
          EachServesCons(c.reg, steps[0], steps[1..], block, rest);
          assert [steps[0]] + steps[1..] == steps;
        }
        blocks := [block] + rest;
      }
    }
  }

  lemma AppendRuns(c: Context, s: State, q: Progress, original: Step)
    requires Runs(c, s, q.steps, q.sim)
    requires Callable(c.reg, original) && StepHolds(c.reg, q.sim, original, c.now)
    ensures Runs(c, s, Append(c, original, q).steps, Append(c, original, q).sim)
  {
    var step := Ungrouped(original);
    assert Callable(c.reg, step);
    RunsExtend(c, s, q.steps, q.sim, step);
  }
}
