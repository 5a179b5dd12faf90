/** Plans and the skill registry (`models/task_plan.py`, `skills/registry.py`). */
module Registry {
  import opened Values
  import opened RobotState
  import opened Templates
  import opened Skills

  datatype Step = Step(id: string, skill: string, arguments: Args,
                       expectedEffect: seq<(string, Value)>,
                       parallelGroup: Option<string>, insertedBy: Option<string>)

  /** Insertion-ordered goal dictionary. */
  type Goals = seq<(string, Value)>

  /** The plan metadata the loop reads: `goal_state` (when it is a mapping), whether
      `goal_state_source` is the projected plan, and `blocked_skills`. */
  datatype Metadata = Metadata(goals: Option<Goals>, projected: bool, blocked: set<string>)

  datatype Plan = Plan(goal: string, steps: seq<Step>, planId: string, revision: int,
                       metadata: Metadata)

  /** Registered skills in registration order. */
  type Skillset = seq<Skill>

  predicate WellFormedSkillset(reg: Skillset) {
    && (forall sk :: sk in reg ==> WellFormed(sk))
    && (forall i, j :: 0 <= i < j < |reg| ==> reg[i].name != reg[j].name)
  }

  function Lookup(reg: Skillset, name: string): (r: Option<Skill>)
    ensures r.Some? ==> r.value in reg && r.value.name == name
    ensures r.None? ==> forall sk :: sk in reg ==> sk.name != name
  {
    if reg == [] then None
    else if reg[0].name == name then Some(reg[0])
    else Lookup(reg[1..], name)
  }

  predicate Knows(reg: Skillset, name: string) { Lookup(reg, name).Some? }

  /** `registry.get` and `validate_arguments` both succeed. */
  predicate Callable(reg: Skillset, step: Step) {
    Knows(reg, step.skill) && ValidArgs(Lookup(reg, step.skill).value, step.arguments)
  }

  function StepEffects(reg: Skillset, step: Step, s: State): Changes {
    match Lookup(reg, step.skill)
    case Some(sk) => ExpectedEffects(sk, step.arguments, s)
    case None => map[]
  }

  /** The planning projection of one step. */
  function Project(reg: Skillset, s: State, step: Step): State {
    Copy(s, StepEffects(reg, step, s))
  }

  predicate StepHolds(reg: Skillset, s: State, step: Step, now: real) {
    match Lookup(reg, step.skill)
    case Some(sk) => PreconditionsHold(sk, s, step.arguments, now)
    case None => false
  }

  class SkillRegistry {
    var skills: Skillset

    constructor ()
      ensures skills == []
    {
      skills := [];
    }

    ghost predicate Valid()
      reads this
    {
      forall i, j :: 0 <= i < j < |skills| ==> skills[i].name != skills[j].name
    }

    /** A duplicate name is refused and leaves the registry as it was; otherwise the new
        skill becomes the last candidate source and every other lookup is unchanged. */
    method Register(skill: Skill) returns (ok: bool)
      requires Valid()
      modifies this
      ensures Valid()
      ensures ok <==> !old(Knows(skills, skill.name))
      ensures skills == if ok then old(skills) + [skill] else old(skills)
      ensures forall n :: Lookup(skills, n) ==
                if ok && n == skill.name then Some(skill) else old(Lookup(skills, n))
    {
      ok := !Knows(skills, skill.name);
      if ok {
        forall n ensures Lookup(skills + [skill], n) ==
                    if n == skill.name then Some(skill) else Lookup(skills, n) {
          LookupAppend(skills, skill, n);
        }
        skills := skills + [skill];
      }
    }
  }

  lemma {:induction false} LookupAppend(reg: Skillset, skill: Skill, name: string)
    ensures Lookup(reg + [skill], name) ==
            if Lookup(reg, name).Some? then Lookup(reg, name)
            else if skill.name == name then Some(skill) else None
  {
    if reg != [] {
      assert (reg + [skill])[1..] == reg[1..] + [skill];
      LookupAppend(reg[1..], skill, name);
    }
  }

  lemma {:induction false} LookupOf(reg: Skillset, sk: Skill)
    requires WellFormedSkillset(reg) && sk in reg
    ensures Lookup(reg, sk.name) == Some(sk)
  {
    if reg[0] != sk {
      var i :| 0 <= i < |reg| && reg[i] == sk;
      assert WellFormedSkillset(reg[1..]);
      assert sk in reg[1..] by { assert reg[1..][i - 1] == sk; }
      LookupOf(reg[1..], sk);
    }
  }

  // ---- Effect-driven synthesis ------------------------------------------------------------

  /** The first effect of the skill that can be inverted into a valid call. */
  function SynthesizeCall(sk: Skill, effects: seq<Effect>, field: string, target: Value, s: State)
    : (r: Option<Args>)
    ensures r.Some? ==> ValidArgs(sk, r.value)
    ensures r.Some? <==> exists e :: && e in effects
                                         && SynthesizeArguments(e, field, target, s).Some?
                                         && ValidArgs(sk, SynthesizeArguments(e, field, target, s).value)
  {
    if effects == [] then None
    else
      var args := SynthesizeArguments(effects[0], field, target, s);
      if args.Some? && ValidArgs(sk, args.value) then args
      else SynthesizeCall(sk, effects[1..], field, target, s)
  }

  /** One candidate step per skill that can establish `field == target`. */
  function SynthesizeCandidates(reg: Skillset, field: string, target: Value, s: State,
                                id: string, author: string, excluded: set<string>): seq<Step>
  {
    if reg == [] then []
    else
      var rest := SynthesizeCandidates(reg[1..], field, target, s, id, author, excluded);
      if reg[0].name in excluded then rest
      else
        match SynthesizeCall(reg[0], reg[0].effects, field, target, s)
        case None => rest
        case Some(args) => [Step(id, reg[0].name, args, [(field, target)], None, Some(author))] + rest
  }

  lemma {:induction false} CandidateShape(
    reg: Skillset, field: string, target: Value, s: State, id: string, author: string,
    excluded: set<string>, c: Step)
    requires c in SynthesizeCandidates(reg, field, target, s, id, author, excluded)
    ensures c.id == id && c.insertedBy == Some(author) && c.parallelGroup == None
    ensures c.expectedEffect == [(field, target)]
    ensures c.skill !in excluded
    ensures exists sk :: sk in reg && sk.name == c.skill && ValidArgs(sk, c.arguments)
  {
    var rest := SynthesizeCandidates(reg[1..], field, target, s, id, author, excluded);
    if c in rest {
      CandidateShape(reg[1..], field, target, s, id, author, excluded, c);
    } else {
      assert reg[0] in reg;
    }
  }

  lemma {:induction false} CandidateCount(
    reg: Skillset, field: string, target: Value, s: State, id: string, author: string,
    excluded: set<string>)
    ensures |SynthesizeCandidates(reg, field, target, s, id, author, excluded)| <= |reg|
  {
    if reg != [] { CandidateCount(reg[1..], field, target, s, id, author, excluded); }
  }

  lemma CandidateCallable(
    reg: Skillset, field: string, target: Value, s: State, id: string, author: string,
    excluded: set<string>, c: Step)
    requires WellFormedSkillset(reg)
    requires c in SynthesizeCandidates(reg, field, target, s, id, author, excluded)
    ensures Callable(reg, c) && c.skill !in excluded
  {
    CandidateShape(reg, field, target, s, id, author, excluded, c);
    var sk :| sk in reg && sk.name == c.skill && ValidArgs(sk, c.arguments);
    LookupOf(reg, sk);
  }

  /** `synthesize_candidates` as the source's nested loops with `break`. */
  method FindCandidates(reg: Skillset, field: string, target: Value, s: State,
                        id: string, author: string, excluded: set<string>)
    returns (candidates: seq<Step>)
    ensures candidates == SynthesizeCandidates(reg, field, target, s, id, author, excluded)
  {
    candidates := [];
    for i := 0 to |reg|
      invariant SynthesizeCandidates(reg, field, target, s, id, author, excluded) ==
                candidates + SynthesizeCandidates(reg[i..], field, target, s, id, author, excluded)
    {
      var skill := reg[i];
      assert reg[i..][1..] == reg[i + 1..];
      if skill.name !in excluded {
        var found: Option<Args> := None;
        for j := 0 to |skill.effects|
          invariant found.None?
          invariant SynthesizeCall(skill, skill.effects, field, target, s) ==
                    SynthesizeCall(skill, skill.effects[j..], field, target, s)
        {
          assert skill.effects[j..][1..] == skill.effects[j + 1..];
          var args := SynthesizeArguments(skill.effects[j], field, target, s);
          if args.Some? {
            var error := ValidateArguments(skill, args.value);
            if error.None? {
              found := args;
              break;
            }
          }
        }
        if found.Some? {
          candidates := candidates +
            [Step(id, skill.name, found.value, [(field, target)], None, Some(author))];
        }
      }
    }
  }

  function SynthesizeStep(reg: Skillset, field: string, target: Value, s: State,
                          id: string, author: string, excluded: set<string>): Option<Step>
  {
    var candidates := SynthesizeCandidates(reg, field, target, s, id, author, excluded);
    if candidates == [] then None else Some(candidates[0])
  }

  /** A step can be synthesized exactly when some registered, not excluded skill has an
      effect that inverts into a valid call. */
  lemma {:induction false} SynthesisFindsAchievers(
    reg: Skillset, field: string, target: Value, s: State, id: string, author: string,
    excluded: set<string>)
    ensures SynthesizeStep(reg, field, target, s, id, author, excluded).Some? <==>
            exists sk :: sk in reg && sk.name !in excluded &&
              SynthesizeCall(sk, sk.effects, field, target, s).Some?
  {
    if reg != [] {
      SynthesisFindsAchievers(reg[1..], field, target, s, id, author, excluded);
      assert reg == [reg[0]] + reg[1..];
      assert forall sk :: sk in reg <==> sk == reg[0] || sk in reg[1..];
    }
  }

  /** The skill's call is that of its first effect that inverts into a valid one. */
  lemma {:induction false} CallIsOfFirst(sk: Skill, effects: seq<Effect>, field: string, target: Value, s: State)
    returns (j: nat)
    requires SynthesizeCall(sk, effects, field, target, s).Some?
    ensures j < |effects|
    ensures SynthesizeArguments(effects[j], field, target, s) == SynthesizeCall(sk, effects, field, target, s)
    ensures forall i :: 0 <= i < j ==>
              var args := SynthesizeArguments(effects[i], field, target, s);
              args.None? || !ValidArgs(sk, args.value)
  {
    var args := SynthesizeArguments(effects[0], field, target, s);
    if args.Some? && ValidArgs(sk, args.value) {
      j := 0;
    } else {
      var k := CallIsOfFirst(sk, effects[1..], field, target, s);
      j := k + 1;
      assert effects[1..][k] == effects[j];
      forall i | 0 < i < j
        ensures var a := SynthesizeArguments(effects[i], field, target, s); a.None? || !ValidArgs(sk, a.value)
      {
        assert effects[i] == effects[1..][i - 1];
      }
    }
  }

  /** The step is a call of the first registered skill, not excluded, that has one. */
  lemma {:induction false} StepIsOfFirst(reg: Skillset, field: string, target: Value, s: State, id: string,
                                         author: string, excluded: set<string>)
    returns (k: nat)
    requires SynthesizeStep(reg, field, target, s, id, author, excluded).Some?
    ensures k < |reg| && reg[k].name !in excluded
    ensures var call := SynthesizeCall(reg[k], reg[k].effects, field, target, s);
            call.Some? && SynthesizeStep(reg, field, target, s, id, author, excluded).value ==
                          Step(id, reg[k].name, call.value, [(field, target)], None, Some(author))
    ensures forall i :: 0 <= i < k && reg[i].name !in excluded ==>
              SynthesizeCall(reg[i], reg[i].effects, field, target, s).None?
  {
    hide SynthesizeCall;
    if reg[0].name !in excluded && SynthesizeCall(reg[0], reg[0].effects, field, target, s).Some? {
      k := 0;
    } else {
      var j := StepIsOfFirst(reg[1..], field, target, s, id, author, excluded);
      k := j + 1;
      assert reg[1..][j] == reg[k];
      forall i | 0 < i < k && reg[i].name !in excluded
        ensures SynthesizeCall(reg[i], reg[i].effects, field, target, s).None?
      {
        assert reg[i] == reg[1..][i - 1];
      }
    }
  }

  // ---- Goal bookkeeping ---------------------------------------------------------------------

  function PutGoal(goals: Goals, field: string, value: Value): Goals {
    if goals == [] then [(field, value)]
    else if goals[0].0 == field then [(field, value)] + goals[1..]
    else [goals[0]] + PutGoal(goals[1..], field, value)
  }

  /** `goals.update({k: v for k, v in effects.items() if v is not None})` */
  function UpdateGoals(goals: Goals, keys: seq<string>, effects: Changes): Goals
    decreases |keys|
  {
    if keys == [] then goals
    else
      var k := keys[0];
      UpdateGoals(
        if k in effects && effects[k].Some? then PutGoal(goals, k, effects[k].value) else goals,
        keys[1..], effects)
  }

  function StepGoals(reg: Skillset, goals: Goals, step: Step, s: State): Goals {
    match Lookup(reg, step.skill)
    case None => goals
    case Some(sk) =>
      UpdateGoals(goals, EffectKeys(sk, step.arguments), ExpectedEffects(sk, step.arguments, s))
  }
}
