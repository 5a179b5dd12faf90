/** The machine-checkable backend boundary (`backends/base_backend.py`). */
module Capability {
  import opened Values
  import opened Templates

  datatype Domain = Domain(name: string, choices: Option<seq<Value>>,
                           minimum: Option<real>, maximum: Option<real>)

  predicate Accepts(d: Domain, v: Value) {
    && (d.choices.Some? ==> exists c :: c in d.choices.value && PyEq(v, c))
    && (d.minimum.Some? ==> Num(v).Some? && d.minimum.value <= Num(v).value)
    && (d.maximum.Some? ==> Num(v).Some? && Num(v).value <= d.maximum.value)
  }

  /** The value is none of the choices, or not a number within the bounds. */
  predicate Outside(d: Domain, v: Value) {
    || (d.choices.Some? && forall i :: 0 <= i < |d.choices.value| ==> !PyEq(v, d.choices.value[i]))
    || ((d.minimum.Some? || d.maximum.Some?) && Num(v).None?)
    || (d.minimum.Some? && Num(v).Some? && Num(v).value < d.minimum.value)
    || (d.maximum.Some? && Num(v).Some? && Num(v).value > d.maximum.value)
  }

  lemma AcceptsExact(d: Domain, v: Value)
    ensures Accepts(d, v) <==> !Outside(d, v)
  {
    if d.choices.Some? {
      var cs := d.choices.value;
      if c :| c in cs && PyEq(v, c) {
        var i :| 0 <= i < |cs| && cs[i] == c;
      }
      assert forall i :: 0 <= i < |cs| ==> cs[i] in cs;
    }
  }

  datatype Semantics = Semantics(skill: string, domains: seq<Domain>, unavoidable: set<string>)

  /** The call stays inside every parameter domain and no unavoidable effect is undeclared. */
  predicate SemanticsAllow(sem: Semantics, args: Args, allowed: set<string>) {
    && (forall d :: d in sem.domains && d.name in args ==> Accepts(d, args[d.name]))
    && sem.unavoidable <= allowed
  }

  function DomainReasons(domains: seq<Domain>, args: Args): (r: seq<string>)
    ensures r == [] <==> forall d :: d in domains && d.name in args ==> Accepts(d, args[d.name])
  {
    if domains == [] then []
    else
      var d := domains[0];
      (if d.name in args && !Accepts(d, args[d.name]) then [d.name] else []) +
      DomainReasons(domains[1..], args)
  }

  /** `SkillSemantics.validate`: one reason per rejecting domain, one for extra effects. */
  function SemanticReasons(sem: Semantics, args: Args, allowed: set<string>): (r: seq<string>)
    ensures r == [] <==> SemanticsAllow(sem, args, allowed)
  {
    DomainReasons(sem.domains, args) +
    (if sem.unavoidable <= allowed then [] else ["undeclared unavoidable effects"])
  }

  datatype Capabilities = Capabilities(supported: Option<set<string>>,
                                       observable: Option<set<string>>,
                                       refreshable: set<string>,
                                       semantics: seq<Semantics>)
  {
    predicate Supports(skill: string) { supported.Some? ==> skill in supported.value }

    predicate CanObserve(field: string) { observable.Some? ==> field in observable.value }

    predicate CanRefresh(field: string) { field in refreshable }

    function SemanticsFor(skill: string): Option<Semantics> { FirstFor(semantics, skill) }
  }

  function FirstFor(semantics: seq<Semantics>, skill: string): Option<Semantics> {
    if semantics == [] then None
    else if semantics[0].skill == skill then Some(semantics[0])
    else FirstFor(semantics[1..], skill)
  }

  /** A skill's semantics are the first ones registered under its name. */
  lemma {:induction false} FirstForExact(semantics: seq<Semantics>, skill: string)
    ensures match FirstFor(semantics, skill)
            case None => forall i :: 0 <= i < |semantics| ==> semantics[i].skill != skill
            case Some(sem) =>
              exists i :: 0 <= i < |semantics| && semantics[i] == sem && sem.skill == skill &&
                          forall j :: 0 <= j < i ==> semantics[j].skill != skill
  {
    if semantics != [] {
      FirstForExact(semantics[1..], skill);
      if semantics[0].skill != skill && FirstFor(semantics, skill).Some? {
        var i :| 0 <= i < |semantics| - 1 && semantics[1..][i] == FirstFor(semantics, skill).value &&
                 forall j :: 0 <= j < i ==> semantics[1..][j].skill != skill;
        assert forall j :: 0 < j <= i ==> semantics[j] == semantics[1..][j - 1];
        assert semantics[i + 1] == FirstFor(semantics, skill).value;
      }
    }
  }
}
