/** Which of its candidates' proposals the search answers with. */
module SearchShortest {
  import opened Values
  import opened RobotState
  import opened Templates
  import opened Skills
  import opened Registry
  import opened DefaultSkills
  import opened Repairer
  import opened RepairSoundness
  import opened SearchCompleteness

  /** What the candidates propose, one after the other: each achieves its failed preconditions
      from `s` with the counters the ones before it have left. */
  function Proposals(c: Context, field: string, target: Value, s: State, path: set<Fact>, depth: nat,
                     candidates: seq<Step>, st: Stats): (r: seq<Option<Found>>)
    requires depth <= c.limits.maxDepth
    ensures |r| == |candidates|
    decreases |candidates|
  {
    if candidates == [] then []
    else
      var prefix := Achieve(c, CandidateEvaluations(c, candidates[0], s), path, depth, Found([], s),
                            st.(considered := st.considered + 1));
      [Proposal(c, field, target, candidates[0], prefix.found)] +
      Proposals(c, field, target, s, path, depth, candidates[1..], prefix.stats)
  }

  /** The `k`-th answer is there, none is shorter, and the earlier ones are longer. */
  predicate EarliestShortest(all: seq<Option<Found>>, k: nat) {
    && k < |all| && all[k].Some?
    && (forall j :: 0 <= j < |all| && all[j].Some? ==> |all[k].value.steps| <= |all[j].value.steps|)
    && (forall j :: 0 <= j < k && all[j].Some? ==> |all[k].value.steps| < |all[j].value.steps|)
  }

  /** The answer is the earliest of the shortest, and there is one if anything is proposed. */
  predicate Chosen(all: seq<Option<Found>>, answer: Option<Found>) {
    if forall j :: 0 <= j < |all| ==> all[j].None? then answer.None?
    else exists k :: 0 <= k < |all| && EarliestShortest(all, k) && answer == all[k]
  }

  /** How long an answer is; none is longer than any. */
  predicate Shorter(a: Option<Found>, b: Option<Found>, strictly: bool) {
    b.Some? ==> a.Some? && (|a.value.steps| < |b.value.steps| || (!strictly && |a.value.steps| == |b.value.steps|))
  }

  lemma BetterIsShorter(best: Option<Found>, first: Option<Found>)
    ensures var r := Better(best, first);
            && Shorter(r, best, false) && Shorter(r, first, false)
            && (r == best || (r == first && Shorter(first, best, true)))
            && (r.None? ==> best.None? && first.None?)
  {
  }

  lemma EarliestAfter(best: Option<Found>, first: Option<Found>, rest: seq<Option<Found>>, k: nat) returns (i: nat)
    requires EarliestShortest([Better(best, first)] + rest, k)
    ensures EarliestShortest([best, first] + rest, i)
    ensures ([best, first] + rest)[i] == ([Better(best, first)] + rest)[k]
  {
    hide Better;
    var less, more := [Better(best, first)] + rest, [best, first] + rest;
    BetterIsShorter(best, first);
    i := if k > 0 then k + 1 else if Better(best, first) == best then 0 else 1;
    forall j | 0 <= j < |more| ensures Shorter(more[i], more[j], j < i) {
      if j >= 2 {
        assert more[j] == less[j - 1];
      } else {
        assert less[0] == Better(best, first);
        assert Shorter(less[k], less[0], k > 0);
      }
    }
    assert forall j :: 0 <= j < |more| && more[j].Some? ==> Shorter(more[i], more[j], j < i);
  }

  lemma ChosenAfter(best: Option<Found>, first: Option<Found>, rest: seq<Option<Found>>, answer: Option<Found>)
    requires Chosen([Better(best, first)] + rest, answer)
    ensures Chosen([best] + ([first] + rest), answer)
  {
    hide EarliestShortest, Better;
    var less, more := [Better(best, first)] + rest, [best, first] + rest;
    assert more == [best] + ([first] + rest);
    BetterIsShorter(best, first);
    if k :| 0 <= k < |less| && EarliestShortest(less, k) && answer == less[k] {
      var i := EarliestAfter(best, first, rest, k);
      EarliestIsThere(more, i);
    } else {
      assert less[0].None?;
      assert forall j :: 2 <= j < |more| ==> more[j] == less[j - 1];
    }
  }

  lemma EarliestIsThere(all: seq<Option<Found>>, k: nat)
    requires EarliestShortest(all, k)
    ensures k < |all| && all[k].Some?
  {
  }

  lemma {:induction false} TryChooses(c: Context, field: string, target: Value, s: State, path: set<Fact>, depth: nat,
                                      candidates: seq<Step>, best: Option<Found>, st: Stats)
    requires depth <= c.limits.maxDepth
    ensures Chosen([best] + Proposals(c, field, target, s, path, depth, candidates, st),
                   TryCandidates(c, field, target, s, path, depth, candidates, best, st).found)
    decreases |candidates|
  {
    hide Search, Achieve, Proposal, CandidateEvaluations;
    if candidates == [] {
      var all := [best] + [];
      assert all == [best];
      if best.Some? { assert EarliestShortest(all, 0); }
    } else {
      hide Chosen;
      var prefix := Achieve(c, CandidateEvaluations(c, candidates[0], s), path, depth, Found([], s),
                            st.(considered := st.considered + 1));
      var first := Proposal(c, field, target, candidates[0], prefix.found);
      TryChooses(c, field, target, s, path, depth, candidates[1..], Better(best, first), prefix.stats);
      ChosenAfter(best, first, Proposals(c, field, target, s, path, depth, candidates[1..], prefix.stats),
                  TryCandidates(c, field, target, s, path, depth, candidates, best, st).found);
    }
  }

  lemma ChosenWithoutNone(all: seq<Option<Found>>, answer: Option<Found>)
    requires Chosen([None] + all, answer)
    ensures Chosen(all, answer)
  {
    var more := [None] + all;
    assert forall j :: 0 < j < |more| ==> more[j] == all[j - 1];
    if k :| 0 <= k < |more| && EarliestShortest(more, k) && answer == more[k] {
      forall j | 0 <= j < |all| && all[j].Some?
        ensures |all[k - 1].value.steps| <= |all[j].value.steps|
        ensures j < k - 1 ==> |all[k - 1].value.steps| < |all[j].value.steps|
      {
        assert more[j + 1] == all[j];
      }
      assert EarliestShortest(all, k - 1);
    } else {
      forall j | 0 <= j < |all| ensures all[j].None? { assert more[j + 1].None?; }
    }
  }

  /** A search that expands answers nothing exactly when no candidate proposes anything, and
      otherwise with the earliest of the shortest proposals. */
  lemma SearchChoosesShortest(c: Context, field: string, target: Value, s: State, path: set<Fact>, depth: nat,
                              st: Stats)
    requires !FactSatisfied(s, field, target) && (field, target) !in path
    requires depth <= c.limits.maxDepth && st.expanded < c.limits.maxExpansions
    ensures Chosen(Proposals(c, field, target, s, path + {(field, target)}, depth, Candidates(c, field, target, s),
                             st.(expanded := st.expanded + 1)),
                   Search(c, field, target, s, path, depth, st).found)
  {
    hide Chosen, Candidates, Search, TryCandidates, Proposals;
    var candidates := Candidates(c, field, target, s);
    var st1 := st.(expanded := st.expanded + 1);
    SearchExpands(c, field, target, s, path, depth, st);
    TryChooses(c, field, target, s, path + {(field, target)}, depth, candidates, None, st1);
    ChosenWithoutNone(Proposals(c, field, target, s, path + {(field, target)}, depth, candidates, st1),
                      Search(c, field, target, s, path, depth, st).found);
  }

  // ---- The shortest of the proposals is not the shortest path ---------------------------------------

  // Two skills achieve q, the second one r as well; p needs both.

  function Makes(name: string): Effect { Effect([Lit(name)], Assign, Some(Bool(true)), None, None, 0.0) }

  function Needing(name: string): Predicate { Predicate([Lit(name)], Bool(true), "MISSING", None) }

  const MAKE_Q := Skill("make_q", [], {}, [], [Makes("q")], 1.0, ["repair"], {}, {}, false)
  const MAKE_BOTH := Skill("make_both", [], {}, [], [Makes("q"), Makes("r")], 1.0, ["repair"], {}, {}, false)
  const MAKE_P := Skill("make_p", [], {}, [Needing("q"), Needing("r")], [Makes("p")], 1.0, ["repair"], {}, {}, false)

  const TRIO: Skillset := [MAKE_Q, MAKE_BOTH, MAKE_P]

  function Facts(p: bool, q: bool, r: bool): State {
    State(map["p" := Bool(p), "q" := Bool(q), "r" := Bool(r)], {}, map[], {}, map[], At(0.0))
  }

  function Making(skill: string, fact: string): Step {
    Step("candidate", skill, map[], [(fact, Bool(true))], None, Some(AUTHOR))
  }

  function TrioContext(limits: Limits): Context { Context(TRIO, limits, 0.0, {}) }

  lemma MakesCall(name: string, field: string, s: State)
    ensures SynthesizeArguments(Makes(name), field, Bool(true), s) ==
            if name == field then Some(map[]) else None
  {
    var t: Template := [Lit(name)];
    assert t[1..] == [];
    if name <= field { assert field[|name|..] == "" <==> field == name; }
    var none: Bindings := map[];
    assert Match(t, field) == (if field == name then Some(none) else None);
    assert AsArgs(none) == map[];
  }

  lemma TrioCalls(field: string, s: State)
    ensures SynthesizeCall(MAKE_Q, MAKE_Q.effects, field, Bool(true), s) == (if field == "q" then Some(map[]) else None)
    ensures SynthesizeCall(MAKE_BOTH, MAKE_BOTH.effects, field, Bool(true), s) ==
            if field == "q" || field == "r" then Some(map[]) else None
    ensures SynthesizeCall(MAKE_P, MAKE_P.effects, field, Bool(true), s) == (if field == "p" then Some(map[]) else None)
  {
    hide SynthesizeArguments;
    MakesCall("p", field, s);
    MakesCall("q", field, s);
    MakesCall("r", field, s);
    assert MAKE_Q.effects[1..] == [] && MAKE_P.effects[1..] == [] && MAKE_BOTH.effects[1..] == [Makes("r")];
    assert MAKE_BOTH.effects[1..][1..] == [];
  }

  lemma OneMore(sk: Skill, rest: Skillset, field: string, s: State)
    ensures var more := SynthesizeCandidates(rest, field, Bool(true), s, "candidate", AUTHOR, {});
            SynthesizeCandidates([sk] + rest, field, Bool(true), s, "candidate", AUTHOR, {}) ==
            match SynthesizeCall(sk, sk.effects, field, Bool(true), s)
            case None => more
            case Some(args) => [Step("candidate", sk.name, args, [(field, Bool(true))], None, Some(AUTHOR))] + more
  {
    hide SynthesizeCall;
    assert ([sk] + rest)[1..] == rest;
  }

  lemma TrioCandidates(limits: Limits, field: string, s: State)
    ensures Candidates(TrioContext(limits), field, Bool(true), s) ==
            if field == "p" then [Making("make_p", "p")]
            else if field == "q" then [Making("make_q", "q"), Making("make_both", "q")]
            else if field == "r" then [Making("make_both", "r")]
            else []
  {
    hide SynthesizeCall, SynthesizeCandidates;
    TrioCalls(field, s);
    OneMore(MAKE_P, [], field, s);
    OneMore(MAKE_BOTH, [MAKE_P], field, s);
    OneMore(MAKE_Q, [MAKE_BOTH, MAKE_P], field, s);
    assert TRIO == [MAKE_Q] + [MAKE_BOTH, MAKE_P] && [MAKE_BOTH, MAKE_P] == [MAKE_BOTH] + [MAKE_P];
    assert [MAKE_P] == [MAKE_P] + [];
    assert SynthesizeCandidates([], field, Bool(true), s, "candidate", AUTHOR, {}) == [] by { NoSkills(field, s); }
  }

  lemma NoSkills(field: string, s: State)
    ensures SynthesizeCandidates([], field, Bool(true), s, "candidate", AUTHOR, {}) == []
  {
  }

  lemma TrioLookup()
    ensures Lookup(TRIO, "make_q") == Some(MAKE_Q)
    ensures Lookup(TRIO, "make_both") == Some(MAKE_BOTH)
    ensures Lookup(TRIO, "make_p") == Some(MAKE_P)
  {
    assert TRIO[1..] == [MAKE_BOTH, MAKE_P] && TRIO[1..][1..] == [MAKE_P];
  }

  lemma TrioEffects(s: State)
    ensures ExpectedEffects(MAKE_P, map[], s) == map["p" := Some(Bool(true))]
    ensures ExpectedEffects(MAKE_Q, map[], s) == map["q" := Some(Bool(true))]
    ensures ExpectedEffects(MAKE_BOTH, map[], s) == map["q" := Some(Bool(true)), "r" := Some(Bool(true))]
  {
    hide EffectsOf, Format;
    var none: Args := map[];
    LiteralFormat("p", none);
    LiteralFormat("q", none);
    LiteralFormat("r", none);
    OneEffect(Makes("p"), none, s);
    OneEffect(Makes("q"), none, s);
    TwoEffects(Makes("q"), Makes("r"), none, s);
  }

  lemma TrioProjects(p: bool, q: bool, r: bool, fact: string)
    ensures Project(TRIO, Facts(p, q, r), Making("make_q", fact)) == Facts(p, true, r)
    ensures Project(TRIO, Facts(p, q, r), Making("make_both", fact)) == Facts(p, true, true)
    ensures Project(TRIO, Facts(p, q, r), Making("make_p", fact)) == Facts(true, q, r)
  {
    hide ExpectedEffects, Lookup;
    TrioLookup();
    TrioEffects(Facts(p, q, r));
    FactsCopy(p, q, r);
  }

  lemma FactsByValue(s: State, p: bool, q: bool, r: bool)
    requires s == Facts(p, q, r).(vals := s.vals)
    requires Raw(s, "p") == Some(Bool(p)) && Raw(s, "q") == Some(Bool(q)) && Raw(s, "r") == Some(Bool(r))
    requires forall k :: k !in {"p", "q", "r"} ==> Raw(s, k).None?
    ensures s == Facts(p, q, r)
  {
    forall k | k in s.vals ensures k in {"p", "q", "r"} { assert Raw(s, k).Some?; }
    assert s.vals == Facts(p, q, r).vals;
  }

  lemma FactsCopy(p: bool, q: bool, r: bool)
    ensures Copy(Facts(p, q, r), map["p" := Some(Bool(true))]) == Facts(true, q, r)
    ensures Copy(Facts(p, q, r), map["q" := Some(Bool(true))]) == Facts(p, true, r)
    ensures Copy(Facts(p, q, r), map["q" := Some(Bool(true)), "r" := Some(Bool(true))]) == Facts(p, true, true)
  {
    hide Copy;
    var yes := Some(Bool(true));
    FactsByValue(Copy(Facts(p, q, r), map["p" := yes]), true, q, r);
    FactsByValue(Copy(Facts(p, q, r), map["q" := yes]), p, true, r);
    FactsByValue(Copy(Facts(p, q, r), map["q" := yes, "r" := yes]), p, true, true);
  }

  lemma TrioHolds(p: bool, q: bool, r: bool, fact: string)
    ensures var s := Facts(p, q, r);
            && StepHolds(TRIO, s, Making("make_q", fact), 0.0)
            && StepHolds(TRIO, s, Making("make_both", fact), 0.0)
            && (q && r ==> StepHolds(TRIO, s, Making("make_p", fact), 0.0))
  {
    hide Lookup, Format;
    TrioLookup();
    LiteralFormat("q", map[]);
    LiteralFormat("r", map[]);
  }

  /** What `make_p` finds missing. */
  lemma TrioNeeds(limits: Limits, p: bool, q: bool, r: bool)
    ensures var evals := CandidateEvaluations(TrioContext(limits), Making("make_p", "p"), Facts(p, q, r));
            && |evals| == 2 && evals[0].field == "q" && evals[1].field == "r"
            && evals[0].expected == Bool(true) && evals[1].expected == Bool(true)
            && (evals[0].Satisfied() <==> q) && (evals[1].Satisfied() <==> r)
  {
    hide Lookup, Format;
    TrioLookup();
    LiteralFormat("q", map[]);
    LiteralFormat("r", map[]);
  }

  lemma FactsKnown(p: bool, q: bool, r: bool)
    ensures var s := Facts(p, q, r);
            && (FactSatisfied(s, "p", Bool(true)) <==> p)
            && (FactSatisfied(s, "q", Bool(true)) <==> q)
            && (FactSatisfied(s, "r", Bool(true)) <==> r)
  {
  }

  /** Searching for a fact with candidates that apply directly answers with the first of them. */
  lemma FirstDirectWins(c: Context, field: string, target: Value, s: State, path: set<Fact>, depth: nat, st: Stats)
    requires !FactSatisfied(s, field, target) && (field, target) !in path
    requires depth <= c.limits.maxDepth && st.expanded < c.limits.maxExpansions
    requires var candidates := Candidates(c, field, target, s);
             candidates != [] && forall x :: x in candidates ==> Direct(c, field, target, s, x)
    ensures var x := Candidates(c, field, target, s)[0];
            var o := Search(c, field, target, s, path, depth, st);
            o.found == Some(Found([x], Project(c.reg, s, x))) && o.stats.expanded == st.expanded + 1
  {
    hide Candidates, Search, FactSatisfied, StepHolds, Project, Chosen, TryCandidates;
    var candidates := Candidates(c, field, target, s);
    var st1 := st.(expanded := st.expanded + 1);
    var inner := path + {(field, target)};
    SearchExpands(c, field, target, s, path, depth, st);
    SearchChoosesShortest(c, field, target, s, path, depth, st);
    DirectProposals(c, field, target, s, inner, depth, candidates, st1);
    DirectTries(c, field, target, s, inner, depth, candidates, None, st1);
    FirstOfEqual(Proposals(c, field, target, s, inner, depth, candidates, st1),
                 Search(c, field, target, s, path, depth, st).found);
  }

  lemma FirstOfEqual(all: seq<Option<Found>>, answer: Option<Found>)
    requires all != [] && forall j :: 0 <= j < |all| ==> all[j].Some? && |all[j].value.steps| == 1
    requires Chosen(all, answer)
    ensures answer == all[0]
  {
  }

  lemma {:induction false} DirectProposals(c: Context, field: string, target: Value, s: State, path: set<Fact>,
                                           depth: nat, candidates: seq<Step>, st: Stats)
    requires depth <= c.limits.maxDepth && forall x :: x in candidates ==> Direct(c, field, target, s, x)
    ensures var all := Proposals(c, field, target, s, path, depth, candidates, st);
            forall j :: 0 <= j < |all| ==>
              all[j] == Some(Found([candidates[j]], Project(c.reg, s, candidates[j])))
    decreases |candidates|
  {
    hide Achieve, Proposal, CandidateEvaluations, Direct, Project;
    if candidates != [] {
      var st1 := st.(considered := st.considered + 1);
      DirectProposal(c, field, target, s, path, depth, candidates[0], st1);
      DirectProposals(c, field, target, s, path, depth, candidates[1..], st1);
    }
  }

  lemma {:induction false} DirectTries(c: Context, field: string, target: Value, s: State, path: set<Fact>,
                                       depth: nat, candidates: seq<Step>, best: Option<Found>, st: Stats)
    requires depth <= c.limits.maxDepth && forall x :: x in candidates ==> Direct(c, field, target, s, x)
    ensures TryCandidates(c, field, target, s, path, depth, candidates, best, st).stats.expanded == st.expanded
    decreases |candidates|
  {
    hide Achieve, Proposal, CandidateEvaluations, Direct, Project, Search, Better;
    if candidates != [] {
      var st1 := st.(considered := st.considered + 1);
      DirectProposal(c, field, target, s, path, depth, candidates[0], st1);
      var prefix := Achieve(c, CandidateEvaluations(c, candidates[0], s), path, depth, Found([], s), st1);
      DirectTries(c, field, target, s, path, depth, candidates[1..],
                  Better(best, Proposal(c, field, target, candidates[0], prefix.found)), st1);
    }
  }

  lemma SearchesQ(limits: Limits, path: set<Fact>, st: Stats)
    requires ("q", Bool(true)) !in path && 2 <= limits.maxDepth && st.expanded < limits.maxExpansions
    ensures var o := Search(TrioContext(limits), "q", Bool(true), Facts(false, false, false), path, 2, st);
            && o.found == Some(Found([Making("make_q", "q")], Facts(false, true, false)))
            && o.stats.expanded == st.expanded + 1
  {
    hide Candidates, Search, FactSatisfied, StepHolds, Project;
    var s := Facts(false, false, false);
    TrioCandidates(limits, "q", s);
    TrioHolds(false, false, false, "q");
    TrioProjects(false, false, false, "q");
    FactsKnown(false, false, false);
    FactsKnown(false, true, false);
    FactsKnown(false, true, true);
    FirstDirectWins(TrioContext(limits), "q", Bool(true), s, path, 2, st);
  }

  lemma SearchesR(limits: Limits, path: set<Fact>, st: Stats)
    requires ("r", Bool(true)) !in path && 2 <= limits.maxDepth && st.expanded < limits.maxExpansions
    ensures var o := Search(TrioContext(limits), "r", Bool(true), Facts(false, true, false), path, 2, st);
            && o.found == Some(Found([Making("make_both", "r")], Facts(false, true, true)))
            && o.stats.expanded == st.expanded + 1
  {
    hide Candidates, Search, FactSatisfied, StepHolds, Project;
    var s := Facts(false, true, false);
    TrioCandidates(limits, "r", s);
    TrioHolds(false, true, false, "r");
    TrioProjects(false, true, false, "r");
    FactsKnown(false, true, false);
    FactsKnown(false, true, true);
    FirstDirectWins(TrioContext(limits), "r", Bool(true), s, path, 2, st);
  }

  lemma AchieveTwo(c: Context, evals: seq<Evaluation>, path: set<Fact>, depth: nat, s: State, st: Stats, a: Found,
                   b: Found)
    requires depth <= c.limits.maxDepth && |evals| == 2 && !evals[0].Satisfied() && !evals[1].Satisfied()
    requires Search(c, evals[0].field, evals[0].expected, s, path, depth + 1, st).found == Some(a)
    requires var st1 := Search(c, evals[0].field, evals[0].expected, s, path, depth + 1, st).stats;
             Search(c, evals[1].field, evals[1].expected, a.state, path, depth + 1, st1).found == Some(b)
    ensures Achieve(c, evals, path, depth, Found([], s), st).found == Some(Found(a.steps + b.steps, b.state))
  {
    hide Search;
    assert [] + a.steps == a.steps;
    assert evals[1..][0] == evals[1] && evals[1..][1..] == [];
    var st1 := Search(c, evals[0].field, evals[0].expected, s, path, depth + 1, st).stats;
    assert Achieve(c, evals, path, depth, Found([], s), st) == Achieve(c, evals[1..], path, depth, a, st1);
  }

  /** Each missing fact is searched for on its own, so the answer can be longer than need be: here
      it has three steps, although the last two of them alone would do. */
  lemma AnswerNeedNotBeShortest(limits: Limits)
    requires 2 <= limits.maxDepth && 3 <= limits.maxExpansions
    ensures var (c, s) := (TrioContext(limits), Facts(false, false, false));
            var (both, make) := (Making("make_both", "r"), Making("make_p", "p"));
            && Search(c, "p", Bool(true), s, {}, 1, NO_STATS).found ==
               Some(Found([Making("make_q", "q"), both, make], Facts(true, true, true)))
            && RepairSoundness.Runs(c, s, [both, make], Facts(true, true, true))
  {
    hide Candidates, Search, FactSatisfied, StepHolds, Project, CandidateEvaluations, Callable;
    var c, s := TrioContext(limits), Facts(false, false, false);
    var first, both, make := Making("make_q", "q"), Making("make_both", "r"), Making("make_p", "p");
    var link := Link("p", Bool(true), make);
    var path: set<Fact> := {("p", Bool(true))};
    TrioCandidates(limits, "p", s);
    FactsKnown(false, false, false);
    OneCandidate(c, link, s, {}, 1, NO_STATS);
    assert {} + path == path;
    var st := NO_STATS.(expanded := 1, considered := 1);
    TrioNeeds(limits, false, false, false);
    var evals := CandidateEvaluations(c, make, s);
    SearchesQ(limits, path, st);
    var st1 := Search(c, "q", Bool(true), s, path, 2, st).stats;
    SearchesR(limits, path, st1);
    AchieveTwo(c, evals, path, 1, s, st, Found([first], Facts(false, true, false)),
               Found([both], Facts(false, true, true)));
    assert [first] + [both] == [first, both];
    TrioHolds(false, true, true, "p");
    TrioProjects(false, true, true, "p");
    FactsKnown(true, true, true);
    assert [first, both] + [make] == [first, both, make];
    ShorterRuns(c);
  }

  lemma ShorterRuns(c: Context)
    requires c.reg == TRIO && c.now == 0.0
    ensures RepairSoundness.Runs(c, Facts(false, false, false), [Making("make_both", "r"), Making("make_p", "p")],
                                 Facts(true, true, true))
  {
    hide StepHolds, Project, Lookup;
    TrioLookup();
    TrioHolds(false, false, false, "r");
    TrioProjects(false, false, false, "r");
    TrioHolds(false, true, true, "p");
    TrioProjects(false, true, true, "p");
    var steps := [Making("make_both", "r"), Making("make_p", "p")];
    assert steps[1..] == [Making("make_p", "p")] && steps[1..][1..] == [];
  }
}
