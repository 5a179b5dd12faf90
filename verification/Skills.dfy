/** Declarative skill contracts: parameters, preconditions and effects
    (`skills/base_skill.py`). */
module Skills {
  import opened Values
  import opened RobotState
  import opened Templates

  /** `python_type` of a parameter; TNumber is `(int, float)`. */
  datatype Kind = TBool | TInt | TFloat | TNumber | TStr

  datatype Param = Param(name: string, kind: Kind, required: bool,
                         minimum: Option<real>, maximum: Option<real>, choices: seq<Value>)

  datatype Predicate = Predicate(field: Template, expected: Value, code: string,
                                 maxAge: Option<real>)

  datatype Operation = Assign | Increment

  datatype Effect = Effect(field: Template, operation: Operation, value: Option<Value>,
                           argument: Option<string>, whenArgument: Option<string>,
                           tolerance: real)

  /** `needsArgument` is the extra check of `set_head`, which rejects an empty call. */
  datatype Skill = Skill(name: string, params: seq<Param>, resources: set<string>,
                         preconditions: seq<Predicate>, effects: seq<Effect>,
                         timeout: real, policy: seq<string>,
                         incompatible: set<string>, allowedSideEffects: set<string>,
                         needsArgument: bool)

  // ---- Contracts that can be evaluated -------------------------------------------------

  predicate HasParam(sk: Skill, name: string) { exists p :: p in sk.params && p.name == name }

  predicate RequiredText(sk: Skill, name: string) {
    exists p :: p in sk.params && p.name == name && p.required && p.kind == TStr
  }

  predicate WellFormedTemplate(sk: Skill, t: Template) {
    DistinctHoles(t) && forall n :: n in Holes(t) ==> RequiredText(sk, n)
  }

  predicate WellFormedEffect(sk: Skill, e: Effect) {
    WellFormedTemplate(sk, e.field) && 0.0 <= e.tolerance &&
    match e.argument
    case None => e.value.Some?
    case Some(a) =>
      a !in Holes(e.field) &&
      (e.whenArgument == Some(a) ||
       exists p :: p in sk.params && p.name == a && p.required)
  }

  /** Placeholders are required text parameters, operands are literals or arguments that
      every valid call passes when the effect is active. */
  predicate WellFormed(sk: Skill) {
    (forall p :: p in sk.preconditions ==> WellFormedTemplate(sk, p.field)) &&
    (forall e :: e in sk.effects ==> WellFormedEffect(sk, e))
  }

  // ---- Arguments ----------------------------------------------------------------------

  predicate KindAccepts(kind: Kind, v: Value) {
    match kind
    case TBool => v.Bool?
    case TInt => v.Int?
    case TFloat => v.Float?
    case TNumber => v.Int? || v.Float?
    case TStr => v.Str?
  }

  predicate ParamAccepts(p: Param, v: Value) {
    && KindAccepts(p.kind, v)
    && (p.minimum.Some? ==> Num(v).Some? && p.minimum.value <= Num(v).value)
    && (p.maximum.Some? ==> Num(v).Some? && Num(v).value <= p.maximum.value)
    && (p.choices != [] ==> exists c :: c in p.choices && PyEq(v, c))
  }

  predicate ParamOk(p: Param, args: Args) {
    if p.name in args then ParamAccepts(p, args[p.name]) else !p.required
  }

  /** The calls that `validate_arguments` lets through. */
  predicate ValidArgs(sk: Skill, args: Args) {
    && (forall n :: n in args ==> HasParam(sk, n))
    && (forall p :: p in sk.params ==> ParamOk(p, args))
    && (sk.needsArgument ==> args != map[])
  }

  datatype ArgumentError = UnknownParameter | Rejected(param: string) | NoArguments

  method ValidateArguments(sk: Skill, args: Args) returns (error: Option<ArgumentError>)
    ensures error.None? <==> ValidArgs(sk, args)
    ensures error.Some? && error.value.Rejected? ==>
              exists p :: p in sk.params && p.name == error.value.param && !ParamOk(p, args)
  {
    if exists n :: n in args && !HasParam(sk, n) {
      return Some(UnknownParameter);
    }
    for i := 0 to |sk.params|
      invariant forall j :: 0 <= j < i ==> ParamOk(sk.params[j], args)
    {
      var p := sk.params[i];
      assert p in sk.params;
      if p.required && p.name !in args {
        return Some(Rejected(p.name));
      }
      if p.name in args && !ParamAccepts(p, args[p.name]) {
        return Some(Rejected(p.name));
      }
    }
    return if sk.needsArgument && args == map[] then Some(NoArguments) else None;
  }

  // ---- Preconditions --------------------------------------------------------------------

  datatype Evaluation = Evaluation(code: string, field: string, expected: Value,
                                   evidence: Evidence)
  {
    /** The truth value is TRUE: known, and equal to the expected value. */
    predicate Satisfied() {
      evidence.status == Known && OptEq(evidence.value, Some(expected))
    }
  }

  function Evaluate(p: Predicate, s: State, args: Args, now: real): Evaluation {
    var field := Format(p.field, args);
    Evaluation(p.code, field, p.expected, EpistemicValue(s, field, p.maxAge, now))
  }

  function EvaluatePreconditions(sk: Skill, s: State, args: Args, now: real): (r: seq<Evaluation>)
    ensures |r| == |sk.preconditions|
    ensures forall i :: 0 <= i < |r| ==> r[i] == Evaluate(sk.preconditions[i], s, args, now)
  {
    seq(|sk.preconditions|, i requires 0 <= i < |sk.preconditions| =>
      Evaluate(sk.preconditions[i], s, args, now))
  }

  /** `check_preconditions` returns no failure. */
  predicate PreconditionsHold(sk: Skill, s: State, args: Args, now: real) {
    forall p :: p in sk.preconditions ==> Evaluate(p, s, args, now).Satisfied()
  }

  // ---- Effects ----------------------------------------------------------------------------

  predicate Active(e: Effect, args: Args) {
    e.whenArgument.None? || e.whenArgument.value in args
  }

  function Operand(e: Effect, args: Args): Option<Value> {
    match e.argument
    case Some(a) => if a in args then Some(args[a]) else None
    case None => e.value
  }

  /** `assign` turns ints into floats and keeps bools and strings. */
  function Coerce(v: Value): Value {
    if v.Int? then Float(v.i as real) else v
  }

  /** None: the value cannot be predicted. */
  function ExpectedValue(e: Effect, args: Args, before: State): Option<Value> {
    var operand := Operand(e, args);
    if operand.None? then None
    else match e.operation
      case Assign => Some(Coerce(operand.value))
      case Increment =>
        var current := Raw(before, Format(e.field, args));
        if current.None? || Num(current.value).None? || Num(operand.value).None? then None
        else Some(Float(Num(current.value).value + Num(operand.value).value))
  }

  /** Evaluating the effect raises no exception in the source. */
  predicate Evaluable(e: Effect, args: Args, before: State) {
    && Resolvable(e.field, args)
    && Operand(e, args).Some?
    && (e.operation == Increment && Raw(before, Format(e.field, args)).Some? ==>
          && Num(Raw(before, Format(e.field, args)).value).Some?
          && Num(Operand(e, args).value).Some?)
  }

  /** The dictionary comprehension over active effects: a later effect wins its field. */
  function EffectsOf(effects: seq<Effect>, args: Args, before: State): Changes {
    if effects == [] then map[]
    else
      var e := effects[|effects| - 1];
      var prior := EffectsOf(effects[..|effects| - 1], args, before);
      if Active(e, args) then prior[Format(e.field, args) := ExpectedValue(e, args, before)]
      else prior
  }

  function ExpectedEffects(sk: Skill, args: Args, before: State): Changes {
    EffectsOf(sk.effects, args, before)
  }

  /** The keys of that dictionary in insertion order. */
  function KeysOf(effects: seq<Effect>, args: Args): seq<string> {
    if effects == [] then []
    else
      var e := effects[|effects| - 1];
      var prior := KeysOf(effects[..|effects| - 1], args);
      var k := Format(e.field, args);
      if Active(e, args) && k !in prior then prior + [k] else prior
  }

  function EffectKeys(sk: Skill, args: Args): seq<string> { KeysOf(sk.effects, args) }

  predicate EffectsEvaluable(sk: Skill, args: Args, before: State) {
    forall e :: e in sk.effects && Active(e, args) ==> Evaluable(e, args, before)
  }

  /** The effect that owns a field: the last active one that writes it. */
  function SpecFor(effects: seq<Effect>, args: Args, field: string): Option<Effect> {
    if effects == [] then None
    else
      var e := effects[|effects| - 1];
      if Active(e, args) && Format(e.field, args) == field then Some(e)
      else SpecFor(effects[..|effects| - 1], args, field)
  }

  lemma {:induction false} EffectsDictionary(effects: seq<Effect>, args: Args, before: State)
    ensures forall k :: k in EffectsOf(effects, args, before) <==> k in KeysOf(effects, args)
    ensures forall k :: k in KeysOf(effects, args) <==> SpecFor(effects, args, k).Some?
    ensures forall k {:trigger SpecFor(effects, args, k)} :: SpecFor(effects, args, k).Some? ==>
              var e := SpecFor(effects, args, k).value;
              && e in effects && Active(e, args) && Format(e.field, args) == k
              && EffectsOf(effects, args, before)[k] == ExpectedValue(e, args, before)
  {
    if effects != [] {
      EffectsDictionary(effects[..|effects| - 1], args, before);
    }
  }

  // ---- Verification -------------------------------------------------------------------------

  /** The post-command evidence for one predicted field meets its target. */
  predicate FieldVerified(sk: Skill, args: Args, after: State, field: string, target: Option<Value>) {
    && Epistemic(after, field).status == Known
    && target.Some?
    && var spec := SpecFor(sk.effects, args, field);
       Within(Raw(after, field), target.value, if spec.Some? then spec.value.tolerance else 0.0)
  }

  /** `verify_outcome(...).achieved` */
  predicate OutcomeVerified(sk: Skill, args: Args, before: State, after: State) {
    var expected := ExpectedEffects(sk, args, before);
    forall k :: k in expected ==> FieldVerified(sk, args, after, k, expected[k])
  }

  /** The reading is fit for use and meets the target: present, not marked stale, without differing
      reports, and equal, or for a float target a number within the tolerance. */
  predicate Confirms(after: State, field: string, target: Value, tolerance: real) {
    && field !in after.stale
    && (field in after.conflicts ==>
          forall a, b :: a in after.conflicts[field] && b in after.conflicts[field] ==> a == b)
    && Raw(after, field).Some?
    && var v := Raw(after, field).value;
       match target
       case Float(t) => Num(v).Some? && t - tolerance <= Num(v).value <= t + tolerance
       case _ => PyEq(v, target)
  }

  /** If an active effect writes the field, the last one that does has a value for it, which the
      reading confirms within that effect's tolerance. */
  predicate OwnerConfirmed(sk: Skill, args: Args, before: State, after: State, field: string) {
    match SpecFor(sk.effects, args, field)
    case None => true
    case Some(e) =>
      var v := ExpectedValue(e, args, before);
      v.Some? && Confirms(after, field, v.value, e.tolerance)
  }

  /** An outcome is verified exactly when that holds of every field. Anything unknown, stale or
      contradictory among the predicted fields fails it. */
  lemma VerifiedExactly(sk: Skill, args: Args, before: State, after: State)
    ensures OutcomeVerified(sk, args, before, after) <==>
            forall k :: OwnerConfirmed(sk, args, before, after, k)
  {
    hide ExpectedValue, SpecFor, EpistemicValue, Confirms, EffectsOf, Within;
    var expected := ExpectedEffects(sk, args, before);
    EffectsDictionary(sk.effects, args, before);
    forall k
      ensures OwnerConfirmed(sk, args, before, after, k) <==>
              (k in expected ==> FieldVerified(sk, args, after, k, expected[k]))
    {
      var owner := SpecFor(sk.effects, args, k);
      assert k in expected <==> owner.Some?;
      if owner.Some? {
        assert expected[k] == ExpectedValue(owner.value, args, before);
        if expected[k].Some? { ConfirmsExactly(after, k, expected[k].value, owner.value.tolerance); }
      }
    }
  }

  lemma ConfirmsExactly(after: State, field: string, target: Value, tolerance: real)
    ensures Epistemic(after, field).status == Known && Within(Raw(after, field), target, tolerance) <==>
            Confirms(after, field, target, tolerance)
  {
    EpistemicExact(after, field, None, 0.0);
  }

  method VerifyOutcome(sk: Skill, args: Args, before: State, after: State)
    returns (failures: seq<string>)
    ensures failures == [] <==> OutcomeVerified(sk, args, before, after)
    ensures forall k :: k in failures <==>
              k in ExpectedEffects(sk, args, before) &&
              !FieldVerified(sk, args, after, k, ExpectedEffects(sk, args, before)[k])
  {
    var expected := ExpectedEffects(sk, args, before);
    var keys := EffectKeys(sk, args);
    EffectsDictionary(sk.effects, args, before);
    failures := [];
    for i := 0 to |keys|
      invariant forall k :: k in failures <==>
        k in keys[..i] && !FieldVerified(sk, args, after, k, expected[k])
    {
      var key := keys[i];
      var target := expected[key];
      var evidence := Epistemic(after, key);
      if evidence.status != Known || target.None? {
        failures := failures + [key];
      } else {
        var spec := SpecFor(sk.effects, args, key);
        if !Within(evidence.value, target.value, spec.value.tolerance) {
          failures := failures + [key];
        }
      }
      assert keys[..i + 1] == keys[..i] + [key];
    }
    assert keys[..|keys|] == keys;
    assert failures != [] ==> failures[0] in failures;
  }

  // ---- Inverting an effect ------------------------------------------------------------------

  /** Arguments that would make the effect establish `target` on `field`. */
  function SynthesizeArguments(e: Effect, field: string, target: Value, s: State): Option<Args> {
    var bindings := Match(e.field, field);
    if bindings.None? then None
    else
      var args := AsArgs(bindings.value);
      match e.operation
      case Assign =>
        (match e.argument
         case Some(a) => Some(args[a := target])
         case None =>
           if e.value.Some? && PyEq(e.value.value, target) then Some(args) else None)
      case Increment =>
        var current := Raw(s, field);
        if e.argument.None? || current.None? || Num(current.value).None? || Num(target).None? then None
        else Some(args[e.argument.value := Float(Num(target).value - Num(current.value).value)])
  }

  /** Effect inversion is exact: the synthesized call resolves the template back to the
      requested field and predicts the requested value, for assignments and increments. */
  lemma SynthesisInverts(sk: Skill, e: Effect, field: string, target: Value, s: State)
    requires WellFormedEffect(sk, e)
    ensures var args := SynthesizeArguments(e, field, target, s);
            args.Some? ==>
              && Resolvable(e.field, args.value)
              && Format(e.field, args.value) == field
              && OptEq(ExpectedValue(e, args.value, s), Some(target))
  {
    var args := SynthesizeArguments(e, field, target, s);
    if args.Some? {
      MatchSound(e.field, field);
      FormatAgrees(e.field, AsArgs(Match(e.field, field).value), args.value);
    }
  }

  /** ... and it fails only when no call of the effect could do it: the field is not an
      instance of the template, a literal differs, or an increment has no number to
      start from or to reach. */
  lemma SynthesisComplete(sk: Skill, e: Effect, field: string, target: Value, s: State, args: Args)
    requires WellFormedEffect(sk, e)
    requires Resolvable(e.field, args) && Format(e.field, args) == field
    requires forall n :: n in Holes(e.field) ==> DotFree(args[n].s)
    requires OptEq(ExpectedValue(e, args, s), Some(target))
    ensures SynthesizeArguments(e, field, target, s).Some? <==>
              (e.operation == Increment ==> e.argument.Some?)
  {
    var b: Bindings := map n | n in Holes(e.field) :: args[n].s;
    FormatAgrees(e.field, AsArgs(b), args);
    assert Fits(e.field, b, field);
    MatchComplete(e.field, b, field);
  }

  // ---- Valid calls of well-formed contracts never raise ---------------------------------------

  lemma ValidCallsResolve(sk: Skill, args: Args)
    requires WellFormed(sk) && ValidArgs(sk, args)
    ensures forall p :: p in sk.preconditions ==> Resolvable(p.field, args)
    ensures forall e :: e in sk.effects && Active(e, args) ==>
              Resolvable(e.field, args) && Operand(e, args).Some?
  {
    forall t: Template, n | WellFormedTemplate(sk, t) && n in Holes(t)
      ensures n in args && args[n].Str?
    {
      assert RequiredText(sk, n);
    }
  }
}
