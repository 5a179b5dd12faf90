/** Step ids of a repaired plan: when the grounder can find a duplicate. */
module RepairIds {
  import opened Values
  import opened RobotState
  import opened Skills
  import opened Registry
  import opened Capability
  import opened Grounder
  import opened GrounderSpec
  import opened GrounderStops
  import opened Repairer
  import opened RepairSoundness
  import opened RepairTheorems

  // ---- Serial numbers ------------------------------------------------------------------------

  lemma {:induction false} DigitsHaveNoMark(n: nat)
    ensures Digits(n) != [] && '_' !in Digits(n)
  {
    if n >= 10 { DigitsHaveNoMark(n / 10); }
  }

  lemma {:induction false} DigitsDiffer(m: nat, n: nat)
    requires Digits(m) == Digits(n)
    ensures m == n
  {
    DigitsHaveNoMark(m / 10);
    DigitsHaveNoMark(n / 10);
    var a, b := Digits(m), Digits(n);
    assert (|a| > 1 <==> m >= 10) && (|b| > 1 <==> n >= 10);
    assert a[|a| - 1] == Digit(m % 10) && b[|b| - 1] == Digit(n % 10);
    if m >= 10 {
      assert a[..|a| - 1] == Digits(m / 10) && b[..|b| - 1] == Digits(n / 10);
      DigitsDiffer(m / 10, n / 10);
    }
  }

  lemma LongerHasMark(id: string, a: string, b: string)
    requires "repair_" + a + "_" <= id && "repair_" + b + "_" <= id && |b| < |a|
    ensures '_' in a
  {
    assert id[7 + |b|] == '_';
    assert id[7 + |b|] == ("repair_" + a + "_")[7 + |b|] == a[|b|];
  }

  /** The mark ends the number: one id does not carry two serial numbers. */
  lemma PrefixesDiffer(id: string, m: nat, n: nat)
    requires RepairPrefix(m) <= id && RepairPrefix(n) <= id
    ensures m == n
  {
    hide Digits;
    DigitsHaveNoMark(m);
    DigitsHaveNoMark(n);
    var a, b := Digits(m), Digits(n);
    assert |a| <= |b| by { if |b| < |a| { LongerHasMark(id, a, b); } }
    assert |b| <= |a| by { if |a| < |b| { LongerHasMark(id, b, a); } }
    assert a == id[7..7 + |a|] && b == id[7..7 + |b|];
    DigitsDiffer(m, n);
  }

  lemma NumberedAreDistinct(steps: seq<Step>, serial: nat)
    requires Numbered(steps, serial)
    ensures DistinctIds(steps)
  {
    forall i, j | 0 <= i < j < |steps| ensures steps[i].id != steps[j].id {
      if steps[i].id == steps[j].id { PrefixesDiffer(steps[i].id, serial + i + 1, serial + j + 1); }
    }
  }

  // ---- Distinct ids of a woven plan --------------------------------------------------------------

  predicate Disjoint(a: seq<Step>, b: seq<Step>) {
    forall p, q :: p in a && q in b ==> p.id != q.id
  }

  function CountId(steps: seq<Step>, id: string): nat {
    if steps == [] then 0 else (if steps[0].id == id then 1 else 0) + CountId(steps[1..], id)
  }

  lemma {:induction false} CountConcat(a: seq<Step>, b: seq<Step>, id: string)
    ensures CountId(a + b, id) == CountId(a, id) + CountId(b, id)
  {
    if a == [] {
      assert a + b == b;
    } else {
      assert (a + b)[1..] == a[1..] + b;
      CountConcat(a[1..], b, id);
    }
  }

  lemma {:induction false} CountIsPositive(steps: seq<Step>, id: string)
    ensures CountId(steps, id) > 0 <==> exists p :: p in steps && p.id == id
  {
    if steps != [] {
      CountIsPositive(steps[1..], id);
      assert forall p :: p in steps <==> p == steps[0] || p in steps[1..];
    }
  }

  ghost predicate CountedOnce(steps: seq<Step>) { forall id :: CountId(steps, id) <= 1 }

  lemma {:induction false} DistinctIsCountedOnce(steps: seq<Step>)
    ensures DistinctIds(steps) <==> CountedOnce(steps)
  {
    if steps != [] {
      var first, rest := steps[0], steps[1..];
      DistinctIsCountedOnce(rest);
      CountIsPositive(rest, first.id);
      assert DistinctIds(steps) <==> DistinctIds(rest) && forall p :: p in rest ==> p.id != first.id by {
        if DistinctIds(steps) {
          forall p | p in rest ensures p.id != first.id {
            var j :| 0 <= j < |rest| && rest[j] == p;
            assert steps[j + 1] == p;
          }
          assert forall i :: 0 <= i < |rest| ==> rest[i] == steps[i + 1];
        }
      }
      assert forall id :: CountId(steps, id) == (if first.id == id then 1 else 0) + CountId(rest, id);
      if CountedOnce(steps) {
        assert CountId(steps, first.id) <= 1;
        forall id ensures CountId(rest, id) <= 1 { assert CountId(steps, id) <= 1; }
      }
    }
  }

  lemma {:induction false} WeaveCounts(blocks: seq<seq<Step>>, originals: seq<Step>, id: string)
    requires |blocks| == |originals|
    ensures CountId(Weave(blocks, originals), id) == CountId(Flat(blocks), id) + CountId(originals, id)
    decreases |originals|
  {
    if originals != [] {
      var rest := Weave(blocks[1..], originals[1..]);
      var o := [Ungrouped(originals[0])];
      CountConcat(blocks[0] + o, rest, id);
      CountConcat(blocks[0], o, id);
      CountConcat(blocks[0], Flat(blocks[1..]), id);
      WeaveCounts(blocks[1..], originals[1..], id);
      assert CountId(o, id) == if originals[0].id == id then 1 else 0;
    }
  }

  /** A woven plan has distinct ids exactly when both parts have and they share none. */
  lemma WovenIds(blocks: seq<seq<Step>>, originals: seq<Step>)
    requires |blocks| == |originals|
    ensures DistinctIds(Weave(blocks, originals)) <==>
            DistinctIds(Flat(blocks)) && DistinctIds(originals) && Disjoint(originals, Flat(blocks))
  {
    hide Weave, Flat, DistinctIds;
    var all, flat := Weave(blocks, originals), Flat(blocks);
    DistinctIsCountedOnce(all);
    DistinctIsCountedOnce(flat);
    DistinctIsCountedOnce(originals);
    forall id
      ensures CountId(all, id) == CountId(flat, id) + CountId(originals, id)
      ensures CountId(flat, id) > 0 <==> exists p :: p in flat && p.id == id
      ensures CountId(originals, id) > 0 <==> exists p :: p in originals && p.id == id
    {
      WeaveCounts(blocks, originals, id);
      CountIsPositive(flat, id);
      CountIsPositive(originals, id);
    }
    if CountedOnce(all) {
      forall id ensures CountId(flat, id) <= 1 && CountId(originals, id) <= 1 { assert CountId(all, id) <= 1; }
      forall p, q | p in originals && q in flat ensures p.id != q.id { assert CountId(all, p.id) <= 1; }
    }
    if CountedOnce(flat) && CountedOnce(originals) && Disjoint(originals, flat) {
      forall id ensures CountId(all, id) <= 1 {
        assert CountId(flat, id) <= 1 && CountId(originals, id) <= 1;
        assert CountId(flat, id) == 0 || CountId(originals, id) == 0;
      }
    }
  }

  // ---- Repaired plans --------------------------------------------------------------------------------

  lemma NoStopMeansDistinct(reg: Skillset, caps: Option<Capabilities>, now: real, plan: Plan, s: State)
    requires !Ground(reg, caps, now, plan, s).RequiresStop()
    ensures DistinctIds(plan.steps)
  {
    RequiresStopExact(reg, caps, now, plan, s);
    var steps := plan.steps;
    forall i, j | 0 <= i < j < |steps| ensures steps[i].id != steps[j].id {
      assert !BlocksAt(reg, caps, steps, s, j);
      assert steps[i] == steps[..j][i];
    }
  }

  /** Acceptance of a repaired plan, in terms of the given one: its ids are distinct anyway, and
      the inserted steps are numbered one after the other, so the repaired plan is grounded
      exactly when no given id is the id of an inserted step and every step meets the demands
      the search does not look at. */
  lemma RepairAccepted(reg: Skillset, limits: Limits, caps: Option<Capabilities>, again: Option<Capabilities>,
                       reported: real, now: real, plan: Plan, s: State)
    returns (blocks: seq<seq<Step>>)
    requires WellFormedSkillset(reg)
    ensures var r := Repair(reg, limits, now, plan, s, Ground(reg, caps, reported, plan, s).RequiresStop());
            r.Some? ==>
              && |blocks| == |plan.steps| && r.value.steps == Weave(blocks, plan.steps)
              && Numbered(Flat(blocks), 0)
              && (Ground(reg, again, now, r.value, s).valid <==>
                    Disjoint(plan.steps, Flat(blocks)) && AllDeliverable(reg, again, r.value.steps, s))
  {
    hide Ground, Repair, AllDeliverable, DistinctIds, Weave, Flat;
    var report := Ground(reg, caps, reported, plan, s);
    var r := Repair(reg, limits, now, plan, s, report.RequiresStop());
    blocks := RepairConservative(reg, limits, caps, reported, now, plan, s);
    RepairSound(reg, limits, caps, again, reported, now, plan, s);
    if r.Some? {
      assert !report.RequiresStop() by { StopsAreNotRepaired(reg, limits, now, plan, s); }
      NoStopMeansDistinct(reg, caps, reported, plan, s);
      NumberedAreDistinct(Flat(blocks), 0);
      WovenIds(blocks, plan.steps);
    }
  }

  lemma StopsAreNotRepaired(reg: Skillset, limits: Limits, now: real, plan: Plan, s: State)
    ensures Repair(reg, limits, now, plan, s, true) == None
  {
  }

  /** In particular a plan whose own ids do not look like those of repairs never fails by them. */
  lemma PlainIdsAreAccepted(reg: Skillset, limits: Limits, caps: Option<Capabilities>,
                            again: Option<Capabilities>, reported: real, now: real, plan: Plan, s: State)
    requires WellFormedSkillset(reg)
    requires forall p :: p in plan.steps ==> !("repair_" <= p.id)
    ensures var r := Repair(reg, limits, now, plan, s, Ground(reg, caps, reported, plan, s).RequiresStop());
            r.Some? ==>
              (Ground(reg, again, now, r.value, s).valid <==> AllDeliverable(reg, again, r.value.steps, s))
  {
    hide Ground, Repair, AllDeliverable, DistinctIds, Weave, Flat;
    var blocks := RepairAccepted(reg, limits, caps, again, reported, now, plan, s);
    if Repair(reg, limits, now, plan, s, Ground(reg, caps, reported, plan, s).RequiresStop()).Some? {
      var flat := Flat(blocks);
      forall p, q | p in plan.steps && q in flat ensures p.id != q.id {
        var i :| 0 <= i < |flat| && flat[i] == q;
        assert RepairPrefix(i + 1) <= q.id;
        assert "repair_" <= RepairPrefix(i + 1);
      }
    }
  }
}
