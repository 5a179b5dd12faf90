/** When the bounded search succeeds. */
module SearchCompleteness {
  import opened Values
  import opened RobotState
  import opened Templates
  import opened Skills
  import opened Registry
  import opened Repairer

  // ---- A directly applicable candidate --------------------------------------------------------

  predicate Direct(c: Context, field: string, target: Value, s: State, candidate: Step) {
    StepHolds(c.reg, s, candidate, c.now) &&
    FactSatisfied(Project(c.reg, s, candidate), field, target)
  }

  lemma {:induction false} AchieveNothing(c: Context, evals: seq<Evaluation>, path: set<Fact>, depth: nat,
                                          done: Found, st: Stats)
    requires depth <= c.limits.maxDepth
    requires forall e :: e in evals ==> e.Satisfied()
    ensures Achieve(c, evals, path, depth, done, st) == Outcome(Some(done), st)
    decreases |evals|
  {
    if evals != [] { AchieveNothing(c, evals[1..], path, depth, done, st); }
  }

  lemma DirectProposal(c: Context, field: string, target: Value, s: State, path: set<Fact>, depth: nat,
                       candidate: Step, st: Stats)
    requires depth <= c.limits.maxDepth && Direct(c, field, target, s, candidate)
    ensures var prefix := Achieve(c, CandidateEvaluations(c, candidate, s), path, depth, Found([], s), st);
            && prefix.stats == st
            && Proposal(c, field, target, candidate, prefix.found) ==
               Some(Found([candidate], Project(c.reg, s, candidate)))
  {
    var evals := CandidateEvaluations(c, candidate, s);
    var sk := Lookup(c.reg, candidate.skill).value;
    forall e | e in evals ensures e.Satisfied() {
      var i :| 0 <= i < |evals| && evals[i] == e;
      assert sk.preconditions[i] in sk.preconditions;
    }
    AchieveNothing(c, evals, path, depth, Found([], s), st);
    assert [] + [candidate] == [candidate];
  }

  /** The four refusals passed, the search tries its candidates. */
  lemma SearchExpands(c: Context, field: string, target: Value, s: State, path: set<Fact>, depth: nat, st: Stats)
    requires !FactSatisfied(s, field, target) && (field, target) !in path
    requires depth <= c.limits.maxDepth && st.expanded < c.limits.maxExpansions
    ensures Search(c, field, target, s, path, depth, st) ==
            TryCandidates(c, field, target, s, path + {(field, target)}, depth,
                          Candidates(c, field, target, s), None, st.(expanded := st.expanded + 1))
  {
  }

  lemma TryFirst(c: Context, field: string, target: Value, s: State, path: set<Fact>, depth: nat,
                 candidates: seq<Step>, best: Option<Found>, st: Stats)
    requires depth <= c.limits.maxDepth && candidates != []
    ensures var prefix := Achieve(c, CandidateEvaluations(c, candidates[0], s), path, depth,
                                  Found([], s), st.(considered := st.considered + 1));
            TryCandidates(c, field, target, s, path, depth, candidates, best, st) ==
            TryCandidates(c, field, target, s, path, depth, candidates[1..],
                          Better(best, Proposal(c, field, target, candidates[0], prefix.found)),
                          prefix.stats)
  {
    hide Search, Achieve, Proposal, Better, CandidateEvaluations;
  }

  predicate HasDirect(c: Context, field: string, target: Value, s: State, candidates: seq<Step>) {
    exists x :: x in candidates && Direct(c, field, target, s, x)
  }

  predicate OneStep(best: Option<Found>) { best.Some? && |best.value.steps| == 1 }

  lemma BetterKeepsOne(best: Option<Found>, proposal: Option<Found>)
    requires best.Some? ==> |best.value.steps| >= 1
    requires proposal.Some? ==> |proposal.value.steps| >= 1
    ensures OneStep(best) || OneStep(proposal) ==> OneStep(Better(best, proposal))
  {
  }

  lemma {:induction false} ShortestIsOne(
    c: Context, field: string, target: Value, s: State, path: set<Fact>, depth: nat,
    candidates: seq<Step>, best: Option<Found>, st: Stats)
    requires depth <= c.limits.maxDepth
    requires best.Some? ==> |best.value.steps| >= 1
    requires OneStep(best) || HasDirect(c, field, target, s, candidates)
    ensures OneStep(TryCandidates(c, field, target, s, path, depth, candidates, best, st).found)
    decreases |candidates|
  {
    if candidates != [] {
      var x := candidates[0];
      var st1 := st.(considered := st.considered + 1);
      var prefix := Achieve(c, CandidateEvaluations(c, x, s), path, depth, Found([], s), st1);
      var proposal := Proposal(c, field, target, x, prefix.found);
      if Direct(c, field, target, s, x) {
        DirectProposal(c, field, target, s, path, depth, x, st1);
      } else {
        assert HasDirect(c, field, target, s, candidates) ==> HasDirect(c, field, target, s, candidates[1..]);
      }
      BetterKeepsOne(best, proposal);
      TryFirst(c, field, target, s, path, depth, candidates, best, st);
      ShortestIsOne(c, field, target, s, path, depth, candidates[1..], Better(best, proposal), prefix.stats);
    }
  }

  /** A candidate that applies directly always yields a one-step answer, wherever it stands
      among its siblings and whatever budget they burn. */
  lemma DirectCandidateWins(
    c: Context, field: string, target: Value, s: State, path: set<Fact>, depth: nat, st: Stats, x: Step)
    requires x in Candidates(c, field, target, s) && Direct(c, field, target, s, x)
    requires !FactSatisfied(s, field, target) && (field, target) !in path
    requires depth <= c.limits.maxDepth && st.expanded < c.limits.maxExpansions
    ensures OneStep(Search(c, field, target, s, path, depth, st).found)
  {
    SearchExpands(c, field, target, s, path, depth, st);
    assert HasDirect(c, field, target, s, Candidates(c, field, target, s));
    ShortestIsOne(c, field, target, s, path + {(field, target)}, depth,
                  Candidates(c, field, target, s), None, st.(expanded := st.expanded + 1));
  }

  // ---- Chains of unique achievers -----------------------------------------------------------------

  /** A fact and the one step that achieves it. */
  datatype Link = Link(field: string, target: Value, step: Step)

  function Fields(links: seq<Link>): set<string> { set l | l in links :: l.field }

  /** One precondition of a step that needs a fact: on that fact, and then the evidence is not
      too old for it; or on a field of `side`, and then it holds in `s`. */
  predicate AsksFor(c: Context, s: State, side: set<string>, p: Predicate, args: Args, field: string, target: Value) {
    var f := Format(p.field, args);
    if f == field then p.expected == target && InAge(StampOf(s, field), p.maxAge, c.now)
    else f in side && Evaluate(p, s, args, c.now).Satisfied()
  }

  /** Nothing but this fact keeps the step from being applicable in `s`. */
  predicate Needs(c: Context, s: State, side: set<string>, step: Step, field: string, target: Value) {
    Knows(c.reg, step.skill) &&
    var sk := Lookup(c.reg, step.skill).value;
    && (exists p :: p in sk.preconditions && Format(p.field, step.arguments) == field)
    && (forall p :: p in sk.preconditions ==> AsksFor(c, s, side, p, step.arguments, field, target))
  }

  /** The effects establish the fact, and of the fields to keep they write no other. */
  predicate Brings(effects: Changes, link: Link, keep: set<string>) {
    && link.field in effects && OptEq(effects[link.field], Some(link.target))
    && forall k :: k in effects && k in keep ==> k == link.field
  }

  /** In `s` the link's step is the only candidate for its fact, and it brings the fact about in
      every projection of `s` that has not touched the fact's field. */
  ghost predicate UniqueAchiever(c: Context, s: State, keep: set<string>, link: Link) {
    && Candidates(c, link.field, link.target, s) == [link.step]
    && forall t: State {:trigger StepEffects(c.reg, link.step, t)} ::
         t == s.(vals := t.vals) && Raw(t, link.field) == Raw(s, link.field) ==>
           Brings(StepEffects(c.reg, link.step, t), link, keep)
  }

  /** Each link's only achiever needs the fact of the next link. Steps may have any further
      preconditions that hold on fields of `side`, and any further effects outside the chain
      and `side`. */
  ghost predicate Chain(c: Context, s: State, side: set<string>, links: seq<Link>) {
    && links != [] && side !! Fields(links)
    && (forall i :: 0 <= i < |links| ==> UniqueAchiever(c, s, side + Fields(links), links[i]))
    && (forall i, j :: 0 <= i < j < |links| ==> links[i].field != links[j].field)
    && (forall i :: 0 <= i < |links| - 1 ==>
          Needs(c, s, side, links[i].step, links[i + 1].field, links[i + 1].target))
  }

  /** The facts from link `i` on are open: clean evidence, not satisfied. */
  predicate Open(links: seq<Link>, s: State, i: nat) {
    forall j :: i <= j < |links| ==>
      !Tainted(s, links[j].field) && !FactSatisfied(s, links[j].field, links[j].target)
  }

  /** Dependency order: the last link's step first. */
  function ChainSteps(links: seq<Link>, i: nat): seq<Step>
    requires i < |links|
    decreases |links| - i
  {
    if i == |links| - 1 then [links[i].step] else ChainSteps(links, i + 1) + [links[i].step]
  }

  lemma {:induction false} ChainStepAt(links: seq<Link>, i: nat, k: nat)
    requires i < |links| && k < |links| - i
    ensures |ChainSteps(links, i)| == |links| - i
    ensures ChainSteps(links, i)[k] == links[|links| - 1 - k].step
    decreases |links| - i
  {
    if i < |links| - 1 { ChainStepAt(links, i + 1, if k < |links| - i - 1 then k else 0); }
  }

  predicate Unvisited(links: seq<Link>, path: set<Fact>, i: nat) {
    forall j :: i <= j < |links| ==> (links[j].field, links[j].target) !in path
  }

  predicate Affordable(c: Context, depth: nat, st: Stats, n: nat) {
    depth + n <= c.limits.maxDepth + 1 && st.expanded + n <= c.limits.maxExpansions
  }

  /** A projection that has left `side` and the fields of the first `i` links alone. */
  predicate Kept(links: seq<Link>, side: set<string>, s: State, t: State, i: nat)
    requires i <= |links|
  {
    && t == s.(vals := t.vals)
    && (forall k :: k in side ==> Raw(t, k) == Raw(s, k))
    && (forall j :: 0 <= j < i ==> Raw(t, links[j].field) == Raw(s, links[j].field))
  }

  /** What the search returns on a chain: the whole chain when it can be afforded. */
  predicate ChainAnswer(links: seq<Link>, side: set<string>, s: State, i: nat, affordable: bool, r: Option<Found>)
    requires i < |links|
  {
    && (r.Some? <==> affordable)
    && (r.Some? ==>
          && r.value.steps == ChainSteps(links, i)
          && Kept(links, side, s, r.value.state, i)
          && OptEq(Raw(r.value.state, links[i].field), Some(links[i].target)))
  }

  lemma OneCandidate(c: Context, link: Link, s: State, path: set<Fact>, depth: nat, st: Stats)
    requires Candidates(c, link.field, link.target, s) == [link.step]
    requires !FactSatisfied(s, link.field, link.target) && (link.field, link.target) !in path
    requires depth <= c.limits.maxDepth && st.expanded < c.limits.maxExpansions
    ensures var prefix := Achieve(c, CandidateEvaluations(c, link.step, s), path + {(link.field, link.target)},
                                  depth, Found([], s),
                                  st.(expanded := st.expanded + 1, considered := st.considered + 1));
            Search(c, link.field, link.target, s, path, depth, st).found ==
            Proposal(c, link.field, link.target, link.step, prefix.found)
  {
    hide Search, Achieve, Proposal, Candidates, CandidateEvaluations, FactSatisfied;
    SearchExpands(c, link.field, link.target, s, path, depth, st);
    TryFirst(c, link.field, link.target, s, path + {(link.field, link.target)}, depth, [link.step], None,
             st.(expanded := st.expanded + 1));
    assert [link.step][1..] == [];
  }

  lemma EstablishedFact(s: State, field: string, target: Value)
    requires !Tainted(s, field) && OptEq(Raw(s, field), Some(target))
    ensures FactSatisfied(s, field, target)
  {
  }

  /** Executing link `i` where the links before it and `side` are untouched. */
  lemma Established(c: Context, links: seq<Link>, side: set<string>, s: State, t: State, i: nat)
    requires Chain(c, s, side, links) && i < |links| && Kept(links, side, s, t, i + 1)
    requires !Tainted(s, links[i].field)
    ensures var u := Project(c.reg, t, links[i].step);
            && Kept(links, side, s, u, i)
            && OptEq(Raw(u, links[i].field), Some(links[i].target))
            && FactSatisfied(u, links[i].field, links[i].target)
  {
    hide Needs, StepEffects, Candidates;
    var link, keep := links[i], side + Fields(links);
    assert UniqueAchiever(c, s, keep, link);
    var effects := StepEffects(c.reg, link.step, t);
    assert Brings(effects, link, keep);
    assert forall j :: 0 <= j < |links| ==> links[j].field in keep;
    var u := Project(c.reg, t, link.step);
    EstablishedFact(u, link.field, link.target);
  }

  /** Every unsatisfied precondition is this fact. */
  predicate AsksOnly(evals: seq<Evaluation>, field: string, target: Value) {
    forall e :: e in evals ==> e.Satisfied() || (e.field == field && e.expected == target)
  }

  /** In every projection that keeps `side`, the step lacks its fact and nothing else. */
  lemma NeededFact(c: Context, s: State, side: set<string>, step: Step, field: string, target: Value, t: State)
    requires Needs(c, s, side, step, field, target)
    requires t == s.(vals := t.vals) && forall k :: k in side ==> Raw(t, k) == Raw(s, k)
    ensures var sk := Lookup(c.reg, step.skill).value;
            var evals := EvaluatePreconditions(sk, t, step.arguments, c.now);
            && AsksOnly(evals, field, target)
            && ((exists e :: e in evals && !e.Satisfied()) <==> !FactSatisfied(t, field, target))
            && (StepHolds(c.reg, t, step, c.now) <==> FactSatisfied(t, field, target))
  {
    hide EpistemicValue;
    var sk := Lookup(c.reg, step.skill).value;
    var evals := EvaluatePreconditions(sk, t, step.arguments, c.now);
    forall p | p in sk.preconditions
      ensures Evaluate(p, t, step.arguments, c.now) in evals
      ensures var e := Evaluate(p, t, step.arguments, c.now);
              if e.field == field then e.expected == target && (e.Satisfied() <==> FactSatisfied(t, field, target))
              else e.Satisfied()
    {
      var i :| 0 <= i < |sk.preconditions| && sk.preconditions[i] == p;
      assert evals[i] == Evaluate(p, t, step.arguments, c.now);
      assert AsksFor(c, s, side, p, step.arguments, field, target);
      SameEvidence(s, t, Format(p.field, step.arguments), p.maxAge, c.now);
    }
    forall e | e in evals ensures exists p :: p in sk.preconditions && e == Evaluate(p, t, step.arguments, c.now) {
      var i :| 0 <= i < |evals| && evals[i] == e;
      assert sk.preconditions[i] in sk.preconditions;
    }
  }

  lemma SameEvidence(s: State, t: State, field: string, maxAge: Option<real>, now: real)
    requires t == s.(vals := t.vals)
    ensures Raw(t, field) == Raw(s, field) ==>
              EpistemicValue(t, field, maxAge, now) == EpistemicValue(s, field, maxAge, now)
    ensures InAge(StampOf(s, field), maxAge, now) ==> EpistemicValue(t, field, maxAge, now) == Epistemic(t, field)
  {
  }

  /** The fact is there: what asks for it asks in vain, at no cost. */
  lemma {:induction false} AchieveDone(c: Context, evals: seq<Evaluation>, field: string, target: Value,
                                       path: set<Fact>, depth: nat, done: Found, st: Stats)
    requires depth <= c.limits.maxDepth
    requires AsksOnly(evals, field, target) && FactSatisfied(done.state, field, target)
    ensures Achieve(c, evals, path, depth, done, st) == Outcome(Some(done), st)
    decreases |evals|
  {
    hide FactSatisfied;
    if evals != [] {
      assert Found(done.steps + [], done.state) == done;
      AchieveDone(c, evals[1..], field, target, path, depth, done, st);
    }
  }

  /** The fact is missing: it is searched once, one level deeper. */
  lemma {:induction false} AchieveFact(c: Context, evals: seq<Evaluation>, field: string, target: Value,
                                       path: set<Fact>, depth: nat, done: Found, st: Stats)
    requires depth <= c.limits.maxDepth
    requires AsksOnly(evals, field, target) && exists e :: e in evals && !e.Satisfied()
    requires var o := Search(c, field, target, done.state, path, depth + 1, st);
             o.found.Some? ==> FactSatisfied(o.found.value.state, field, target)
    ensures var o := Search(c, field, target, done.state, path, depth + 1, st);
            Achieve(c, evals, path, depth, done, st) ==
            match o.found
            case None => o
            case Some(f) => Outcome(Some(Found(done.steps + f.steps, f.state)), o.stats)
    decreases |evals|
  {
    hide FactSatisfied, Search;
    if evals[0].Satisfied() {
      assert exists e :: e in evals[1..] && !e.Satisfied();
      AchieveFact(c, evals[1..], field, target, path, depth, done, st);
    } else {
      var o := Search(c, field, target, done.state, path, depth + 1, st);
      if o.found.Some? {
        var f := o.found.value;
        AchieveDone(c, evals[1..], field, target, path, depth, Found(done.steps + f.steps, f.state), o.stats);
      }
    }
  }

  lemma {:induction false} SearchChain(
    c: Context, links: seq<Link>, side: set<string>, i: nat, s: State, path: set<Fact>, depth: nat, st: Stats)
    requires Chain(c, s, side, links) && i < |links|
    requires Open(links, s, i) && Unvisited(links, path, i)
    requires StepHolds(c.reg, s, links[|links| - 1].step, c.now)
    ensures ChainAnswer(links, side, s, i, Affordable(c, depth, st, |links| - i),
                        Search(c, links[i].field, links[i].target, s, path, depth, st).found)
    decreases |links| - i
  {
    hide StepHolds, Kept, Achieve, Candidates, Needs, Proposal;
    var link := links[i];
    if depth <= c.limits.maxDepth && st.expanded < c.limits.maxExpansions {
      assert UniqueAchiever(c, s, side + Fields(links), link);
      OneCandidate(c, link, s, path, depth, st);
      var st1 := st.(expanded := st.expanded + 1, considered := st.considered + 1);
      var path1 := path + {(link.field, link.target)};
      if i == |links| - 1 {
        LastLink(c, links, side, s, path1, depth, st1);
      } else {
        LinkStep(c, links, side, i, s, path1, depth, st1);
      }
    }
  }

  /** The innermost link is enabled as it is. */
  lemma LastLink(c: Context, links: seq<Link>, side: set<string>, s: State, path: set<Fact>, depth: nat, st: Stats)
    requires links != [] && Chain(c, s, side, links) && depth <= c.limits.maxDepth
    requires Open(links, s, |links| - 1) && StepHolds(c.reg, s, links[|links| - 1].step, c.now)
    ensures var link := links[|links| - 1];
            var prefix := Achieve(c, CandidateEvaluations(c, link.step, s), path, depth, Found([], s), st);
            ChainAnswer(links, side, s, |links| - 1, true,
                        Proposal(c, link.field, link.target, link.step, prefix.found))
  {
    hide Chain, StepHolds, Achieve, Proposal, Candidates;
    var i := |links| - 1;
    assert Kept(links, side, s, s, i + 1);
    Established(c, links, side, s, s, i);
    DirectProposal(c, links[i].field, links[i].target, s, path, depth, links[i].step, st);
  }

  /** The inner links: the next fact is searched one level deeper. */
  lemma {:induction false} LinkStep(
    c: Context, links: seq<Link>, side: set<string>, i: nat, s: State, path: set<Fact>, depth: nat, st: Stats)
    requires Chain(c, s, side, links) && i < |links| - 1 && depth <= c.limits.maxDepth
    requires Open(links, s, i) && Unvisited(links, path, i + 1)
    requires StepHolds(c.reg, s, links[|links| - 1].step, c.now)
    ensures var prefix := Achieve(c, CandidateEvaluations(c, links[i].step, s), path, depth, Found([], s), st);
            ChainAnswer(links, side, s, i, Affordable(c, depth + 1, st, |links| - i - 1),
                        Proposal(c, links[i].field, links[i].target, links[i].step, prefix.found))
    decreases |links| - i, 0
  {
    hide StepHolds, FactSatisfied, Search, Achieve, UniqueAchiever, AsksFor;
    var link, next := links[i], links[i + 1];
    assert Needs(c, s, side, link.step, next.field, next.target);
    NeededFact(c, s, side, link.step, next.field, next.target, s);
    SearchChain(c, links, side, i + 1, s, path, depth + 1, st);
    var nested := Search(c, next.field, next.target, s, path, depth + 1, st);
    if nested.found.Some? {
      EstablishedFact(nested.found.value.state, next.field, next.target) by {
        assert !Tainted(s, next.field);
      }
    }
    AchieveFact(c, CandidateEvaluations(c, link.step, s), next.field, next.target, path, depth, Found([], s), st);
    if nested.found.Some? {
      var f := nested.found.value;
      assert [] + f.steps == f.steps;
      NeededFact(c, s, side, link.step, next.field, next.target, f.state);
      Established(c, links, side, s, f.state, i);
    }
  }

  // ---- Repairing a plan through a chain -----------------------------------------------------------

  lemma {:induction false} InsertAllSteps(c: Context, failure: Evaluation, repairs: seq<Step>, p: Progress)
    ensures var q := InsertAll(c, failure, repairs, p);
            && (q.Some? <==> repairs == [] || p.serial + |repairs| <= c.limits.maxInsertions)
            && (q.Some? ==>
                  && |q.value.steps| == |p.steps| + |repairs|
                  && (forall k :: 0 <= k < |p.steps| ==> q.value.steps[k] == p.steps[k])
                  && (forall k :: 0 <= k < |repairs| ==>
                        q.value.steps[|p.steps| + k] == Renamed(repairs[k], p.serial + k + 1, failure)))
    decreases |repairs|
  {
    if repairs != [] && p.serial + 1 <= c.limits.maxInsertions {
      var next := Insert(c, failure, repairs[0], p);
      InsertAllSteps(c, failure, repairs[1..], next);
      var q := InsertAll(c, failure, repairs[1..], next);
      if q.Some? {
        forall k | 0 <= k < |repairs|
          ensures q.value.steps[|p.steps| + k] == Renamed(repairs[k], p.serial + k + 1, failure)
        {
          if k > 0 { assert repairs[k] == repairs[1..][k - 1]; }
        }
      }
    }
  }

  predicate SameCall(a: Step, b: Step) { a.skill == b.skill && a.arguments == b.arguments }

  /** The link's step as the repair inserts it: renamed by its place and the field it is for. */
  predicate RepairOf(step: Step, link: Link, serial: nat, field: string) {
    && SameCall(step, link.step)
    && step.id == "repair_" + Digits(serial) + "_" + field
    && step.expectedEffect == link.step.expectedEffect && step.parallelGroup == link.step.parallelGroup
  }

  predicate ChainInserted(links: seq<Link>, steps: seq<Step>) {
    && |steps| == |links|
    && forall k :: 0 <= k < |links| ==> RepairOf(steps[k], links[|links| - 1 - k], k + 1, links[0].field)
  }

  /** The chain in dependency order, then the step that needed it. */
  predicate ChainPlan(links: seq<Link>, original: Step, steps: seq<Step>) {
    && |steps| == |links| + 1
    && ChainInserted(links, steps[..|links|])
    && steps[|links|] == Ungrouped(original)
  }

  predicate WithinLimits(limits: Limits, n: nat) {
    n <= limits.maxDepth && n <= limits.maxExpansions && n <= limits.maxInsertions
  }

  lemma {:induction false} InsertChain(c: Context, failure: Evaluation, links: seq<Link>, p: Progress)
    requires links != [] && p.steps == [] && p.serial == 0 && failure.field == links[0].field
    ensures var q := InsertAll(c, failure, ChainSteps(links, 0), p);
            && (q.Some? <==> |links| <= c.limits.maxInsertions)
            && (q.Some? ==> ChainInserted(links, q.value.steps))
  {
    var repairs := ChainSteps(links, 0);
    ChainStepAt(links, 0, 0);
    InsertAllSteps(c, failure, repairs, p);
    var q := InsertAll(c, failure, repairs, p);
    if q.Some? {
      forall k | 0 <= k < |links|
        ensures RepairOf(q.value.steps[k], links[|links| - 1 - k], k + 1, links[0].field)
      {
        ChainStepAt(links, 0, k);
        assert q.value.steps[|p.steps| + k] == Renamed(repairs[k], p.serial + k + 1, failure);
      }
    }
  }

  lemma MendChain(c: Context, links: seq<Link>, side: set<string>, failure: Evaluation, s: State, p: Progress)
    requires Chain(c, s, side, links) && Open(links, s, 0)
    requires StepHolds(c.reg, s, links[|links| - 1].step, c.now)
    requires failure.field == links[0].field && failure.expected == links[0].target
    requires p == Progress([], s, [], 0, NO_STATS)
    ensures var a := Mend(c, failure, p);
            && (a.progress.Some? <==> WithinLimits(c.limits, |links|))
            && (a.progress.Some? ==>
                  && ChainInserted(links, a.progress.value.steps)
                  && Kept(links, side, s, a.progress.value.sim, 0)
                  && FactSatisfied(a.progress.value.sim, links[0].field, links[0].target))
  {
    hide Search, InsertAll, StepHolds, UniqueAchiever, FactSatisfied, ChainInserted;
    SearchChain(c, links, side, 0, s, {}, 1, NO_STATS);
    InsertChain(c, failure, links, p);
    var o := Search(c, links[0].field, links[0].target, s, {}, 1, NO_STATS);
    if o.found.Some? {
      assert !Tainted(s, links[0].field);
      EstablishedFact(o.found.value.state, links[0].field, links[0].target);
    }
  }

  /** The fact is there: what asks for it is mended by nothing. */
  lemma {:induction false} MendDone(c: Context, evals: seq<Evaluation>, field: string, target: Value, p: Progress)
    requires AsksOnly(evals, field, target) && FactSatisfied(p.sim, field, target)
    ensures MendAll(c, evals, p) == Attempt(Some(p), p.stats)
    decreases |evals|
  {
    hide FactSatisfied;
    if evals != [] { MendDone(c, evals[1..], field, target, p); }
  }

  /** The fact is missing: one search for it, on behalf of the first precondition that asks,
      mends them all. */
  lemma {:induction false} MendFact(c: Context, evals: seq<Evaluation>, field: string, target: Value, p: Progress)
    returns (failure: Evaluation)
    requires AsksOnly(evals, field, target) && exists e :: e in evals && !e.Satisfied()
    requires forall e :: e in evals && !e.Satisfied() ==>
               var a := Mend(c, e, p);
               a.progress.Some? ==>
                 FactSatisfied(a.progress.value.sim, field, target) && a.stats == a.progress.value.stats
    ensures failure in evals && !failure.Satisfied()
    ensures MendAll(c, evals, p) == Mend(c, failure, p)
    decreases |evals|
  {
    hide FactSatisfied, Mend;
    failure := evals[0];
    if evals[0].Satisfied() {
      assert exists e :: e in evals[1..] && !e.Satisfied();
      failure := MendFact(c, evals[1..], field, target, p);
    } else {
      var a := Mend(c, failure, p);
      if a.progress.Some? { MendDone(c, evals[1..], field, target, a.progress.value); }
    }
  }

  lemma RepairOne(c: Context, original: Step, p: Progress)
    requires Knows(c.reg, original.skill)
    ensures var evals := EvaluatePreconditions(Lookup(c.reg, original.skill).value, p.sim,
                                               original.arguments, c.now);
            var a := MendAll(c, evals, p);
            var r := RepairSteps(c, [original], p);
            && (r.progress.Some? <==>
                  a.progress.Some? && StepHolds(c.reg, a.progress.value.sim, original, c.now))
            && (r.progress.Some? ==>
                  r.progress.value.steps == a.progress.value.steps + [Ungrouped(original)])
  {
    assert [original][1..] == [];
  }

  lemma MendCarriesStats(c: Context, failure: Evaluation, p: Progress)
    ensures var a := Mend(c, failure, p); a.progress.Some? ==> a.stats == a.progress.value.stats
  {
  }

  /** Sharp completeness. When a step lacks nothing but the head of a chain of n unique
      achievers, each lacking nothing but the next one's fact and the last one enabled, repair
      succeeds exactly when n is within the depth, expansion and insertion limits, and then
      inserts exactly the chain, in dependency order. */
  lemma ChainRepair(reg: Skillset, limits: Limits, now: real, plan: Plan, s: State, side: set<string>,
                    links: seq<Link>, original: Step)
    requires plan.steps == [original]
    requires var c := RepairContext(reg, limits, now, plan);
             links != [] && Chain(c, s, side, links) && Needs(c, s, side, original, links[0].field, links[0].target)
    requires Open(links, s, 0) && StepHolds(reg, s, links[|links| - 1].step, now)
    ensures var r := Repair(reg, limits, now, plan, s, false);
            && (r.Some? <==> WithinLimits(limits, |links|))
            && (r.Some? ==> ChainPlan(links, original, r.value.steps))
  {
    hide Chain, Mend, MendAll, StepHolds, Needs, FactSatisfied, ChainInserted, Kept, EvaluatePreconditions;
    var c := RepairContext(reg, limits, now, plan);
    var p := Progress([], s, [], 0, NO_STATS);
    var first := links[0];
    assert Knows(reg, original.skill) by { NeedyIsKnown(c, s, side, original, first.field, first.target); }
    var evals := EvaluatePreconditions(Lookup(reg, original.skill).value, s, original.arguments, now);
    NeededFact(c, s, side, original, first.field, first.target, s);
    assert !FactSatisfied(s, first.field, first.target);
    forall e | e in evals && !e.Satisfied()
      ensures var a := Mend(c, e, p);
              a.progress.Some? ==>
                FactSatisfied(a.progress.value.sim, first.field, first.target) && a.stats == a.progress.value.stats
    {
      MendChain(c, links, side, e, s, p);
      MendCarriesStats(c, e, p);
    }
    var failure := MendFact(c, evals, first.field, first.target, p);
    MendChain(c, links, side, failure, s, p);
    RepairOne(c, original, p);
    var a := Mend(c, failure, p);
    if a.progress.Some? {
      KeptKeepsSide(links, side, s, a.progress.value.sim);
      NeededFact(c, s, side, original, first.field, first.target, a.progress.value.sim);
      assert (a.progress.value.steps + [Ungrouped(original)])[..|a.progress.value.steps|] == a.progress.value.steps;
      InsertedLength(links, a.progress.value.steps);
    }
  }

  lemma NeedyIsKnown(c: Context, s: State, side: set<string>, step: Step, field: string, target: Value)
    requires Needs(c, s, side, step, field, target)
    ensures Knows(c.reg, step.skill)
  {
  }

  lemma KeptKeepsSide(links: seq<Link>, side: set<string>, s: State, t: State)
    requires Kept(links, side, s, t, 0)
    ensures t == s.(vals := t.vals) && forall k :: k in side ==> Raw(t, k) == Raw(s, k)
  {
  }

  lemma InsertedLength(links: seq<Link>, steps: seq<Step>)
    requires ChainInserted(links, steps)
    ensures |steps| == |links|
  {
  }

  // ---- Such chains exist, at every length -------------------------------------------------------------

  /** A preparation skill: achieves its own fact, needs the next one's, no older than `age`. */
  function ChainSkill(names: seq<string>, age: Option<real>, i: nat): Skill
    requires i < |names|
  {
    Skill(names[i], [], {},
          if i + 1 < |names| then [Predicate([Lit(names[i + 1])], Bool(true), "NOT_PREPARED", age)] else [],
          [Effect([Lit(names[i])], Assign, Some(Bool(true)), None, None, 0.0)],
          1.0, ["repair"], {}, {}, false)
  }

  function ChainSkillset(names: seq<string>, age: Option<real>, k: nat): Skillset
    requires k <= |names|
    decreases |names| - k
  {
    if k == |names| then [] else [ChainSkill(names, age, k)] + ChainSkillset(names, age, k + 1)
  }

  function ChainStep(name: string): Step {
    Step("candidate", name, map[], [(name, Bool(true))], None, Some(AUTHOR))
  }

  function ChainLinks(names: seq<string>): seq<Link> {
    seq(|names|, i requires 0 <= i < |names| => Link(names[i], Bool(true), ChainStep(names[i])))
  }

  predicate Distinct(names: seq<string>) {
    forall i, j :: 0 <= i < j < |names| ==> names[i] != names[j]
  }

  lemma ChainCall(names: seq<string>, age: Option<real>, k: nat, field: string, s: State)
    requires k < |names|
    ensures var sk := ChainSkill(names, age, k);
            SynthesizeCall(sk, sk.effects, field, Bool(true), s) ==
            if field == names[k] then Some(map[]) else None
  {
    var t: Template := [Lit(names[k])];
    assert t[1..] == [];
    if names[k] <= field {
      assert field[|names[k]|..] == "" <==> field == names[k];
    }
    assert Match(t, field) == if field == names[k] then Some(map[]) else None;
    var empty: Bindings := map[];
    assert AsArgs(empty) == map[];
  }

  lemma {:induction false} ChainCandidates(names: seq<string>, age: Option<real>, k: nat, i: nat, s: State)
    requires Distinct(names) && k <= |names| && i < |names|
    ensures SynthesizeCandidates(ChainSkillset(names, age, k), names[i], Bool(true), s, "candidate", AUTHOR, {}) ==
            if k <= i then [ChainStep(names[i])] else []
    decreases |names| - k
  {
    if k < |names| {
      var reg, rest := ChainSkillset(names, age, k), ChainSkillset(names, age, k + 1);
      ChainCandidates(names, age, k + 1, i, s);
      ChainCall(names, age, k, names[i], s);
      assert reg[0] == ChainSkill(names, age, k) && reg[1..] == rest;
      assert names[i] == names[k] <==> i == k;
    }
  }

  lemma {:induction false} ChainLookup(names: seq<string>, age: Option<real>, k: nat, i: nat)
    requires Distinct(names) && k <= i < |names|
    ensures Lookup(ChainSkillset(names, age, k), names[i]) == Some(ChainSkill(names, age, i))
    decreases |names| - k
  {
    var reg, rest := ChainSkillset(names, age, k), ChainSkillset(names, age, k + 1);
    assert reg == [ChainSkill(names, age, k)] + rest;
    assert reg[0].name == names[k] && reg[1..] == rest;
    if k < i {
      ChainLookup(names, age, k + 1, i);
      assert names[k] != names[i];
    }
  }

  lemma ChainEffects(names: seq<string>, age: Option<real>, i: nat, s: State)
    requires i < |names|
    ensures ExpectedEffects(ChainSkill(names, age, i), map[], s) == map[names[i] := Some(Bool(true))]
  {
    var e := ChainSkill(names, age, i).effects[0];
    assert ChainSkill(names, age, i).effects[..0] == [];
    assert Format(e.field, map[]) == names[i] by { assert e.field[1..] == []; }
    assert EffectsOf([], map[], s) == map[];
  }

  function ChainContext(names: seq<string>, age: Option<real>, limits: Limits, now: real): Context {
    Context(ChainSkillset(names, age, 0), limits, now, {})
  }

  function AllFalse(names: seq<string>, now: real): State {
    State(map n | n in names :: Bool(false), {}, map[], {}, map[], At(now))
  }

  lemma ChainLinkUnique(names: seq<string>, age: Option<real>, limits: Limits, now: real, s: State,
                        keep: set<string>, i: nat)
    requires Distinct(names) && i < |names|
    ensures UniqueAchiever(ChainContext(names, age, limits, now), s, keep, ChainLinks(names)[i])
  {
    hide ExpectedEffects;
    var c := ChainContext(names, age, limits, now);
    var link := ChainLinks(names)[i];
    ChainLookup(names, age, 0, i);
    ChainCandidates(names, age, 0, i, s);
    forall t ensures Brings(StepEffects(c.reg, link.step, t), link, keep) {
      ChainEffects(names, age, i, t);
    }
  }

  lemma ChainLinkNeeds(names: seq<string>, age: Option<real>, limits: Limits, now: real, i: nat)
    requires Distinct(names) && i + 1 < |names| && (age.Some? ==> 0.0 <= age.value)
    ensures Needs(ChainContext(names, age, limits, now), AllFalse(names, now), {}, ChainStep(names[i]),
                  names[i + 1], Bool(true))
  {
    ChainLookup(names, age, 0, i);
    var t: Template := [Lit(names[i + 1])];
    assert t[1..] == [];
    assert Format(t, map[]) == names[i + 1];
    var sk := ChainSkill(names, age, i);
    assert sk.preconditions[0] in sk.preconditions;
  }

  lemma ChainIsChain(names: seq<string>, age: Option<real>, limits: Limits, now: real)
    requires names != [] && Distinct(names) && (age.Some? ==> 0.0 <= age.value)
    ensures Chain(ChainContext(names, age, limits, now), AllFalse(names, now), {}, ChainLinks(names))
  {
    hide UniqueAchiever, Needs;
    var c, s, links := ChainContext(names, age, limits, now), AllFalse(names, now), ChainLinks(names);
    forall i | 0 <= i < |names| ensures UniqueAchiever(c, s, {} + Fields(links), links[i]) {
      ChainLinkUnique(names, age, limits, now, s, {} + Fields(links), i);
    }
    forall i | 0 <= i < |links| - 1
      ensures Needs(c, s, {}, links[i].step, links[i + 1].field, links[i + 1].target)
    {
      ChainLinkNeeds(names, age, limits, now, i);
    }
  }

  lemma ChainIsOpen(names: seq<string>, now: real)
    ensures Open(ChainLinks(names), AllFalse(names, now), 0)
  {
    var s := AllFalse(names, now);
    forall j | 0 <= j < |names| ensures Epistemic(s, names[j]) == Evidence(Some(Bool(false)), Known) {
      assert names[j] in names;
    }
  }

  lemma ChainIsReady(names: seq<string>, age: Option<real>, now: real, s: State)
    requires names != [] && Distinct(names)
    ensures StepHolds(ChainSkillset(names, age, 0), s, ChainLinks(names)[|names| - 1].step, now)
  {
    var last := |names| - 1;
    ChainLookup(names, age, 0, last);
    assert ChainLinks(names)[last].step.skill == names[last];
    assert ChainSkill(names, age, last).preconditions == [];
  }

  /** Any list of distinct names gives a registry that is such a chain, with or without an age
      limit, ready from the state in which every fact is freshly known to be false. */
  lemma ChainsExist(names: seq<string>, age: Option<real>, limits: Limits, now: real)
    requires names != [] && Distinct(names) && (age.Some? ==> 0.0 <= age.value)
    ensures Chain(ChainContext(names, age, limits, now), AllFalse(names, now), {}, ChainLinks(names))
    ensures Open(ChainLinks(names), AllFalse(names, now), 0)
    ensures StepHolds(ChainSkillset(names, age, 0), AllFalse(names, now), ChainLinks(names)[|names| - 1].step, now)
  {
    ChainIsChain(names, age, limits, now);
    ChainIsOpen(names, now);
    ChainIsReady(names, age, now, AllFalse(names, now));
  }
}
