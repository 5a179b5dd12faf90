/** Bounded backward search over declared effects (`grounding/plan_repairer.py`). */
module Repairer {
  import opened Values
  import opened RobotState
  import opened Skills
  import opened Registry

  datatype Limits = Limits(maxInsertions: nat, maxDepth: nat, maxExpansions: nat)

  datatype Stats = Stats(expanded: nat, considered: nat, cycles: nat, depthHits: nat,
                         expansionHits: nat, selected: nat)

  /** What stays fixed during one `repair` call. */
  datatype Context = Context(reg: Skillset, limits: Limits, now: real, excluded: set<string>)

  /** A requested fact; Python keys it by field and `repr(target)`. */
  type Fact = (string, Value)

  /** Steps that establish a fact, and the projected state after them. */
  datatype Found = Found(steps: seq<Step>, state: State)

  datatype Outcome = Outcome(found: Option<Found>, stats: Stats)

  const AUTHOR := "PlanRepairer:effect-search"

  predicate FactSatisfied(s: State, field: string, target: Value) {
    var evidence := Epistemic(s, field);
    evidence.status == Known && OptEq(evidence.value, Some(target))
  }

  /** Levels of recursion that the depth limit still allows. */
  function Left(c: Context, depth: nat): nat {
    if depth <= c.limits.maxDepth then c.limits.maxDepth + 1 - depth else 0
  }

  function Candidates(c: Context, field: string, target: Value, s: State): seq<Step> {
    SynthesizeCandidates(c.reg, field, target, s, "candidate", AUTHOR, c.excluded)
  }

  /** `_search`; the statistics are the shared counters, threaded through. */
  function Search(c: Context, field: string, target: Value, s: State, path: set<Fact>, depth: nat,
                  st: Stats): Outcome
    decreases Left(c, depth), 2, 0
  {
    if FactSatisfied(s, field, target) then Outcome(Some(Found([], s)), st)
    else if (field, target) in path then Outcome(None, st.(cycles := st.cycles + 1))
    else if depth > c.limits.maxDepth then Outcome(None, st.(depthHits := st.depthHits + 1))
    else if st.expanded >= c.limits.maxExpansions then
      Outcome(None, st.(expansionHits := st.expansionHits + 1))
    else
      TryCandidates(c, field, target, s, path + {(field, target)}, depth,
                    Candidates(c, field, target, s), None, st.(expanded := st.expanded + 1))
  }

  /** What one candidate contributes: its achieved preconditions, itself, and its projection. */
  function Proposal(c: Context, field: string, target: Value, candidate: Step, prefix: Option<Found>)
    : Option<Found>
  {
    match prefix
    case None => None
    case Some(f) =>
      if !StepHolds(c.reg, f.state, candidate, c.now) then None
      else
        var projected := Project(c.reg, f.state, candidate);
        if FactSatisfied(projected, field, target) then Some(Found(f.steps + [candidate], projected))
        else None
  }

  /** Strictly shorter proposals win; ties keep the earlier candidate. */
  function Better(best: Option<Found>, proposal: Option<Found>): Option<Found> {
    if proposal.Some? && (best.None? || |proposal.value.steps| < |best.value.steps|) then proposal
    else best
  }

  function CandidateEvaluations(c: Context, candidate: Step, s: State): seq<Evaluation> {
    match Lookup(c.reg, candidate.skill)
    case Some(sk) => EvaluatePreconditions(sk, s, candidate.arguments, c.now)
    case None => []
  }

  function TryCandidates(c: Context, field: string, target: Value, s: State, path: set<Fact>,
                         depth: nat, candidates: seq<Step>, best: Option<Found>, st: Stats): Outcome
    requires depth <= c.limits.maxDepth
    decreases Left(c, depth), 1, |candidates|
  {
    if candidates == [] then Outcome(best, st)
    else
      var prefix := Achieve(c, CandidateEvaluations(c, candidates[0], s), path, depth,
                            Found([], s), st.(considered := st.considered + 1));
      TryCandidates(c, field, target, s, path, depth, candidates[1..],
                    Better(best, Proposal(c, field, target, candidates[0], prefix.found)),
                    prefix.stats)
  }

  /** Search for each failed precondition in turn, from the state the previous ones reached. */
  function Achieve(c: Context, evals: seq<Evaluation>, path: set<Fact>, depth: nat, done: Found,
                   st: Stats): Outcome
    requires depth <= c.limits.maxDepth
    decreases Left(c, depth), 0, |evals|
  {
    if evals == [] then Outcome(Some(done), st)
    else if evals[0].Satisfied() then Achieve(c, evals[1..], path, depth, done, st)
    else
      var nested := Search(c, evals[0].field, evals[0].expected, done.state, path, depth + 1, st);
      match nested.found
      case None => nested
      case Some(f) =>
        Achieve(c, evals[1..], path, depth, Found(done.steps + f.steps, f.state), nested.stats)
  }

  // ---- Repairing a plan --------------------------------------------------------------------

  function Digit(n: nat): char
    requires n < 10
  {
    "0123456789"[n]
  }

  function Digits(n: nat): string {
    if n < 10 then [Digit(n)] else Digits(n / 10) + [Digit(n % 10)]
  }

  function Decimal(n: int): string { if n < 0 then "-" + Digits(-n) else Digits(n) }

  /** `new_steps`, `projected`, `repaired_goals`, `serial` and the counters. */
  datatype Progress = Progress(steps: seq<Step>, sim: State, goals: Goals, serial: nat, stats: Stats)

  datatype Attempt = Attempt(progress: Option<Progress>, stats: Stats)

  function Renamed(repair: Step, serial: nat, failure: Evaluation): Step {
    repair.(id := "repair_" + Digits(serial) + "_" + failure.field,
            insertedBy := Some("PlanRepairer:" + failure.code))
  }

  /** One found step replayed into the plan; `sim` is the `replayed` state. */
  function Insert(c: Context, failure: Evaluation, step: Step, p: Progress): Progress {
    var repair := Renamed(step, p.serial + 1, failure);
    p.(steps := p.steps + [repair],
       goals := StepGoals(c.reg, p.goals, repair, p.sim),
       sim := Project(c.reg, p.sim, repair),
       serial := p.serial + 1)
  }

  /** Replays the found steps, counting them against the insertion limit. */
  function InsertAll(c: Context, failure: Evaluation, repairs: seq<Step>, p: Progress): Option<Progress>
    decreases |repairs|
  {
    if repairs == [] then Some(p)
    else if p.serial + 1 > c.limits.maxInsertions then None
    else InsertAll(c, failure, repairs[1..], Insert(c, failure, repairs[0], p))
  }

  /** One failed precondition of an original step. */
  function Mend(c: Context, failure: Evaluation, p: Progress): Attempt {
    var o := Search(c, failure.field, failure.expected, p.sim, {}, 1, p.stats);
    match o.found
    case None => Attempt(None, o.stats)
    case Some(f) =>
      match InsertAll(c, failure, f.steps, p)
      case None => Attempt(None, o.stats)
      case Some(q) =>
        var st := o.stats.(selected := o.stats.selected + |f.steps|);
        Attempt(Some(q.(sim := f.state, stats := st)), st)
  }

  function MendAll(c: Context, evals: seq<Evaluation>, p: Progress): Attempt
    decreases |evals|
  {
    if evals == [] then Attempt(Some(p), p.stats)
    else if evals[0].Satisfied() then MendAll(c, evals[1..], p)
    else
      var a := Mend(c, evals[0], p);
      if a.progress.None? then a else MendAll(c, evals[1..], a.progress.value)
  }

  function Ungrouped(step: Step): Step { step.(parallelGroup := None) }

  function Append(c: Context, step: Step, p: Progress): Progress {
    p.(steps := p.steps + [Ungrouped(step)],
       goals := StepGoals(c.reg, p.goals, step, p.sim),
       sim := Project(c.reg, p.sim, step))
  }

  function RepairSteps(c: Context, steps: seq<Step>, p: Progress): Attempt
    decreases |steps|
  {
    if steps == [] then Attempt(Some(p), p.stats)
    else
      match Lookup(c.reg, steps[0].skill)
      case None => Attempt(None, p.stats)
      case Some(sk) =>
        var a := MendAll(c, EvaluatePreconditions(sk, p.sim, steps[0].arguments, c.now), p);
        if a.progress.None? then a
        else if !PreconditionsHold(sk, a.progress.value.sim, steps[0].arguments, c.now) then
          Attempt(None, a.stats)
        else
          RepairSteps(c, steps[1..], Append(c, steps[0], a.progress.value))
  }

  const NO_STATS := Stats(0, 0, 0, 0, 0, 0)

  function Repaired(plan: Plan, p: Progress): Plan {
    Plan(plan.goal, p.steps, plan.planId, plan.revision + 1,
         if plan.metadata.projected then plan.metadata.(goals := Some(p.goals)) else plan.metadata)
  }

  function RepairContext(reg: Skillset, limits: Limits, now: real, plan: Plan): Context {
    Context(reg, limits, now, plan.metadata.blocked)
  }

  /** `repair`, given whether the grounding report requires a stop. */
  function RepairAttempt(c: Context, plan: Plan, s: State, requiresStop: bool): Attempt {
    if requiresStop then Attempt(None, NO_STATS)
    else RepairSteps(c, plan.steps, Progress([], s, [], 0, NO_STATS))
  }

  function Repair(reg: Skillset, limits: Limits, now: real, plan: Plan, s: State, requiresStop: bool)
    : Option<Plan>
  {
    match RepairAttempt(RepairContext(reg, limits, now, plan), plan, s, requiresStop).progress
    case None => None
    case Some(p) => Some(Repaired(plan, p))
  }
}
