/** Field templates such as `{arm}_arm_safe`, read as pieces (`skills/base_skill.py`). */
module Templates {
  import opened Values

  type Args = map<string, Value>
  type Bindings = map<string, string>

  datatype Piece = Lit(text: string) | Hole(name: string)
  type Template = seq<Piece>

  function Holes(t: Template): set<string> {
    set p | p in t && p.Hole? :: p.name
  }

  predicate DistinctHoles(t: Template) {
    forall i, j :: 0 <= i < j < |t| && t[i].Hole? && t[j].Hole? ==> t[i].name != t[j].name
  }

  /** `format(**arguments)` raises unless every placeholder is an argument. */
  predicate Resolvable(t: Template, args: Args) {
    forall n :: n in Holes(t) ==> n in args && args[n].Str?
  }

  function Format(t: Template, args: Args): string {
    if t == [] then ""
    else (match t[0]
          case Lit(text) => text
          case Hole(n) => if n in args && args[n].Str? then args[n].s else "")
         + Format(t[1..], args)
  }

  function AsArgs(b: Bindings): Args {
    map n | n in b :: Str(b[n])
  }

  predicate DotFree(s: string) { s != "" && '.' !in s }

  /** The regular expression built from the template: literal text, and a lazy
      `[^.]+?` group for each placeholder, matched against the whole field. */
  function Match(t: Template, field: string): Option<Bindings>
    decreases |t|, |field| + 2
  {
    if t == [] then (if field == "" then Some(map[]) else None)
    else match t[0]
      case Lit(text) =>
        if text <= field then Match(t[1..], field[|text|..]) else None
      case Hole(n) => MatchHole(t, field, 1)
  }

  /** Lazy group: the shortest capture first, longer ones on backtracking. */
  function MatchHole(t: Template, field: string, k: nat): Option<Bindings>
    requires t != [] && t[0].Hole? && 1 <= k
    decreases |t|, |field| + 2 - k
  {
    if k > |field| || field[k - 1] == '.' then None
    else match Match(t[1..], field[k..])
      case Some(b) => Some(b[t[0].name := field[..k]])
      case None => MatchHole(t, field, k + 1)
  }

  /** `b` is one way to read `field` as an instance of `t`. */
  predicate Fits(t: Template, b: Bindings, field: string) {
    (forall n :: n in Holes(t) ==> n in b && DotFree(b[n])) &&
    Format(t, AsArgs(b)) == field
  }

  lemma {:induction false} FormatAgrees(t: Template, a: Args, b: Args)
    requires forall n :: n in Holes(t) ==> n in a && n in b && a[n] == b[n]
    ensures Format(t, a) == Format(t, b)
  {
    if t != [] {
      HolesOfRest(t);
      FormatAgrees(t[1..], a, b);
    }
  }

  lemma HolesOfRest(t: Template)
    requires t != []
    ensures Holes(t) == Holes(t[1..]) + (if t[0].Hole? then {t[0].name} else {})
    ensures DistinctHoles(t) ==> DistinctHoles(t[1..]) && (t[0].Hole? ==> t[0].name !in Holes(t[1..]))
  {
    assert t == [t[0]] + t[1..];
    assert forall p :: p in t <==> p == t[0] || p in t[1..];
  }

  lemma ReadHole(t: Template, b: Bindings, cut: string, rest: string)
    requires t != [] && t[0].Hole? && DistinctHoles(t) && DotFree(cut)
    requires b.Keys == Holes(t[1..]) && Fits(t[1..], b, rest)
    ensures Fits(t, b[t[0].name := cut], cut + rest)
    ensures b[t[0].name := cut].Keys == Holes(t)
  {
    HolesOfRest(t);
    var c := b[t[0].name := cut];
    FormatAgrees(t[1..], AsArgs(b), AsArgs(c));
    assert Format(t, AsArgs(c)) == cut + rest;
  }

  lemma {:induction false} MatchSound(t: Template, field: string)
    requires DistinctHoles(t)
    ensures var m := Match(t, field);
            m.Some? ==> m.value.Keys == Holes(t) && Fits(t, m.value, field)
    decreases |t|, |field| + 2
  {
    if t != [] {
      HolesOfRest(t);
      match t[0]
      case Lit(text) =>
        if text <= field {
          MatchSound(t[1..], field[|text|..]);
          assert field == text + field[|text|..];
        }
      case Hole(n) => MatchHoleSound(t, field, 1);
    }
  }

  lemma {:induction false} MatchHoleSound(t: Template, field: string, k: nat)
    requires DistinctHoles(t)
    requires t != [] && t[0].Hole? && 1 <= k
    requires k <= |field| + 1 && '.' !in field[..k - 1]
    ensures var m := MatchHole(t, field, k);
            m.Some? ==> m.value.Keys == Holes(t) && Fits(t, m.value, field)
    decreases |t|, |field| + 2 - k
  {
    if k <= |field| && field[k - 1] != '.' {
      var cut, rest := field[..k], field[k..];
      assert cut == field[..k - 1] + [field[k - 1]];
      assert field == cut + rest;
      if Match(t[1..], rest).Some? {
        HolesOfRest(t);
        MatchSound(t[1..], rest);
        ReadHole(t, Match(t[1..], rest).value, cut, rest);
      } else {
        MatchHoleSound(t, field, k + 1);
      }
    }
  }

  lemma {:induction false} MatchComplete(t: Template, b: Bindings, field: string)
    requires Fits(t, b, field)
    ensures Match(t, field).Some?
    decreases |t|, |field| + 2
  {
    if t != [] {
      HolesOfRest(t);
      var rest := Format(t[1..], AsArgs(b));
      match t[0]
      case Lit(text) =>
        assert field[|text|..] == rest;
        MatchComplete(t[1..], b, rest);
      case Hole(n) =>
        assert field == b[n] + rest;
        MatchHoleComplete(t, b, field, 1);
    }
  }

  lemma {:induction false} MatchHoleComplete(t: Template, b: Bindings, field: string, k: nat)
    requires t != [] && t[0].Hole? && Fits(t, b, field)
    requires t[0].name in b && 1 <= k <= |b[t[0].name]|
    ensures MatchHole(t, field, k).Some?
    decreases |t|, |field| + 2 - k
  {
    HolesOfRest(t);
    var cut := b[t[0].name];
    var rest := Format(t[1..], AsArgs(b));
    assert field == cut + rest;
    assert field[k - 1] == cut[k - 1] && cut[k - 1] in cut;
    if k == |cut| {
      assert field[k..] == rest;
      MatchComplete(t[1..], b, rest);
    } else {
      MatchHoleComplete(t, b, field, k + 1);
    }
  }

  /** The matcher succeeds exactly when some non-empty, dot-free reading of the
      placeholders formats to the field, and then returns such a reading. */
  lemma MatchExact(t: Template, field: string)
    requires DistinctHoles(t)
    ensures Match(t, field).Some? <==> exists b :: Fits(t, b, field)
    ensures Match(t, field).Some? ==> Fits(t, Match(t, field).value, field)
  {
    MatchSound(t, field);
    if b :| Fits(t, b, field) { MatchComplete(t, b, field); }
  }
}
