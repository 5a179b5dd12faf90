/** What the recovery decisions of a run amount to. */
module RunRecovery {
  import opened Values
  import opened Templates
  import opened Registry
  import opened Executor
  import opened Transitions
  import opened RunSafety

  predicate RetriesAllowed(x: Setup, skill: string) {
    x.flags.allowRecovery && Knows(x.Reg(), skill) && MayRetry(Lookup(x.Reg(), skill).value.policy)
  }

  /** The next attempt at the same call, after a failure. */
  predicate FollowsUp(x: Setup, r: Result, skill: string, args: Args, attempt: nat) {
    r.skill == skill && r.args == args && !r.achieved && r.attempt + 1 == attempt && RetriesAllowed(x, skill)
  }

  /** Numbered from one, never beyond the retry budget; all but a first attempt directly follow
      a failure of the same call of a skill that may be retried. */
  predicate ChainedAt(x: Setup, results: seq<Result>, i: nat)
    requires i < |results|
  {
    var r := results[i];
    && 1 <= r.attempt <= x.config.maxRetries + 1
    && (r.attempt > 1 ==> i > 0 && FollowsUp(x, results[i - 1], r.skill, r.args, r.attempt))
  }

  predicate Chained(x: Setup, results: seq<Result>) {
    forall i :: 0 <= i < |results| ==> ChainedAt(x, results, i)
  }

  /** The attempt that is about to be made belongs to the chain too. */
  predicate NextIsChained(x: Setup, c: Control) {
    c.mode.Inner? && c.mode.attempt > 1 ==>
      && c.results != []
      && FollowsUp(x, c.results[|c.results| - 1], c.mode.skill.name, c.mode.step.arguments, c.mode.attempt)
  }

  lemma AttemptIsNumbered(x: Setup, c: Control)
    requires c.mode.Inner?
    ensures var r := Attempted(x, c).results[|c.results|];
            r.skill == c.mode.skill.name && r.args == c.mode.step.arguments && r.attempt == c.mode.attempt
  {
  }

  lemma AttemptStaysChained(x: Setup, base: nat, c: Control)
    requires c.mode.Inner? && AtHead(x, base, c) && Chained(x, c.results) && NextIsChained(x, c)
    ensures Chained(x, Attempted(x, c).results)
  {
    hide Attempted;
    AttemptCounts(x, c);
    AttemptIsNumbered(x, c);
    var results, n := Attempted(x, c).results, |c.results|;
    forall i | 0 <= i < |results| ensures ChainedAt(x, results, i) {
      if i < n {
        assert ChainedAt(x, c.results, i);
        assert results[i] == c.results[i];
        if i > 0 { assert results[i - 1] == c.results[i - 1]; }
      } else if n > 0 {
        assert results[n - 1] == c.results[n - 1];
      }
    }
  }

  lemma ChainedKept(x: Setup, base: nat, c: Control)
    requires AtHead(x, base, c) && Chained(x, c.results) && NextIsChained(x, c)
    ensures Chained(x, Advance(x, c).results) && NextIsChained(x, Advance(x, c))
  {
    hide Advance, Attempted, FromReplanner, SuffixFromRepair, DeniedNow, Denied, Guarded;
    AdvanceKinds(x, c);
    if c.mode.Inner? {
      AttemptStaysChained(x, base, c);
      AttemptCounts(x, c);
      AttemptIsNumbered(x, c);
    }
  }

  lemma {:induction false} ChainedAlways(x: Setup, base: nat, c: Control, n: nat)
    requires AtHead(x, base, c) && Chained(x, c.results) && NextIsChained(x, c)
    ensures var d := Iterate(x, c, n);
            AtHead(x, base, d) && Chained(x, d.results) && NextIsChained(x, d)
  {
    hide Advance, AtHead, Chained, NextIsChained;
    if n > 0 {
      ChainedAlways(x, base, c, n - 1);
      AtHeadKept(x, base, Iterate(x, c, n - 1));
      ChainedKept(x, base, Iterate(x, c, n - 1));
    }
  }

  /** Recovery within its budget, in every run against any backend: attempts of a call are
      numbered 1, 2, ... and never exceed maxRetries + 1, and a call is repeated only after
      it failed, by a skill whose policy allows it, with recovery on. */
  lemma RetriesWithinBudget(x: Setup, plan: Plan, log: Log, last: Option<string>, n: nat)
    ensures Chained(x, After(x, plan, log, last, n).results)
  {
    hide Start, Advance, Chained;
    StartFresh(x, plan, log, last);
    var c := Start(x, plan, log, last);
    assert Chained(x, []) by { NothingChained(x); }
    ChainedAlways(x, |log|, c, n);
  }

  lemma NothingChained(x: Setup)
    ensures Chained(x, [])
  {
  }
}
