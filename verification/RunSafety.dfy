/** What every run keeps, whatever the backend answers. */
module RunSafety {
  import opened Values
  import opened RobotState
  import opened Templates
  import opened Skills
  import opened Registry
  import opened Grounder
  import opened Repairer
  import opened Executor
  import opened Transitions

  // ---- The start of a run -----------------------------------------------------------------------

  /** Nothing but observation has happened; the plan carries goals and the blocked set it came with. */
  predicate Fresh(plan: Plan, log: Log, last: Option<string>, c: Control) {
    && (c.mode.Outer? || c.mode == Final(false))
    && c.index == 0 && c.replans == 0 && c.runtimeRepairs == 0 && c.results == [] && c.adopted == []
    && c.epoch == 0 && c.last == last
    && Watched(log, c.log)
    && CountReground(c.decisions) == 0
    && c.plan.metadata.goals.Some? && c.plan.metadata.blocked == plan.metadata.blocked
  }

  lemma RepairKeepsMetadata(reg: Skillset, limits: Limits, now: real, plan: Plan, s: State, stop: bool)
    ensures var r := Repair(reg, limits, now, plan, s, stop);
            r.Some? ==>
              && r.value.metadata.blocked == plan.metadata.blocked
              && (plan.metadata.goals.Some? ==> r.value.metadata.goals.Some?)
  {
    hide RepairAttempt;
  }

  lemma PreflightEndFresh(x: Setup, plan: Plan, log: Log, last: Option<string>, c: Control, s: State, report: Report)
    requires Fresh(plan, log, last, c)
    ensures Fresh(plan, log, last, PreflightEnd(x, c, s, report))
  {
    hide Ground, Repair, RepairPermitted, Watched, CountReground, Report.RequiresStop;
    CountOne([], EXECUTE);
    CountOne(c.decisions, REPAIR);
    RepairKeepsMetadata(x.Reg(), x.config.limits, x.backend.clock(c.log, ForRepair), c.plan, s, false);
    NothingCounted();
    assert [] + [EXECUTE] == [EXECUTE];
  }

  lemma NothingCounted()
    ensures CountReground([]) == 0
  {
  }

  lemma {:induction false} PreflightFresh(x: Setup, plan: Plan, log: Log, last: Option<string>, c: Control,
                                          s: State, attempts: nat)
    requires Fresh(plan, log, last, c)
    ensures Fresh(plan, log, last, PreflightLoop(x, c, s, attempts))
    decreases x.config.maxObservations - attempts
  {
    var report := Ground(x.Reg(), x.Caps(), x.backend.clock(c.log, ForGround), c.plan, s);
    var fields := ObservableFields(x.Reg(), c.plan, report, x.backend.capabilities);
    if !report.valid && !report.RequiresStop() && x.flags.activeObservation &&
       attempts < x.config.maxObservations && fields != {} {
      var t := Overlay(x.backend.acquire(c.log, fields), c.last);
      WatchedMore(log, c.log, Acquired(fields, t));
      CountOne(c.decisions, OBSERVE);
      PreflightFresh(x, plan, log, last,
                     Decided(c.(log := c.log + [Acquired(fields, t)]), OBSERVE), t, attempts + 1);
    } else {
      PreflightEndFresh(x, plan, log, last, c, s, report);
    }
  }

  lemma LookedFresh(x: Setup, plan: Plan, log: Log, last: Option<string>)
    ensures var c := Begin(plan, log, last);
            var s := Look(x, c);
            Fresh(plan, log, last, Saw(c, s).(plan := WithGoalState(x.Reg(), plan, s)))
  {
    WatchedOne(log, Observed(Look(x, Begin(plan, log, last))));
  }

  lemma StartFresh(x: Setup, plan: Plan, log: Log, last: Option<string>)
    ensures Fresh(plan, log, last, Start(x, plan, log, last))
  {
    var c := Begin(plan, log, last);
    var s := Look(x, c);
    var c1 := Saw(c, s).(plan := WithGoalState(x.Reg(), plan, s));
    LookedFresh(x, plan, log, last);
    if x.flags.groundPlan {
      PreflightFresh(x, plan, log, last, c1, s, 0);
    } else {
      CountOne([], EXECUTE);
      assert Launch(c1, EXECUTE, []).decisions == [] + [EXECUTE];
    }
  }

  // ---- Loop heads -------------------------------------------------------------------------------

  /** At the attempt loop, `before` is the latest event, the guard allowed it, and attempts are
      within the retry budget. */
  predicate AtHead(x: Setup, base: nat, c: Control) {
    && c.index <= |c.plan.steps|
    && base <= |c.log|
    && (c.mode.Inner? ==>
          && c.index < |c.plan.steps| && c.plan.steps[c.index] == c.mode.step
          && Callable(x.Reg(), c.mode.step)
          && Lookup(x.Reg(), c.mode.step.skill) == Some(c.mode.skill)
          && base < |c.log| && c.log[|c.log| - 1] == Observed(c.mode.before)
          && 1 <= c.mode.attempt <= x.config.maxRetries + 1
          && Guarded(x, c.mode.skill, c.mode.step, c.mode.before, c.log))
  }

  lemma AtHeadOuter(x: Setup, base: nat, c: Control, d: Control)
    requires AtHead(x, base, c) && FromOuter(x, c, d)
    ensures AtHead(x, base, d)
  {
    if Entered(x, c, d) {
    } else if Reobserved(x, c, d) {
    } else if Resuffixed(x, c, d) {
    } else if StoppedAfter(c, d) {
    }
  }

  lemma AtHeadInner(x: Setup, base: nat, c: Control, d: Control)
    requires AtHead(x, base, c) && FromInner(x, c, d)
    ensures AtHead(x, base, d)
  {
    AttemptLog(x, c);
    if Progressed(x, c, d) {
    } else if Retried(x, c, d) {
    } else if Regrounded(x, c, d) {
    } else if Replanned(x, c, d) {
    }
  }

  lemma AtHeadKept(x: Setup, base: nat, c: Control)
    requires AtHead(x, base, c)
    ensures AtHead(x, base, Advance(x, c))
  {
    AdvanceKinds(x, c);
    match c.mode
    case Outer => AtHeadOuter(x, base, c, Advance(x, c));
    case Inner(_, _, _, _) => AtHeadInner(x, base, c, Advance(x, c));
    case Final(_) =>
  }

  // ---- Guarded dispatch --------------------------------------------------------------------------

  /** The field has the expected value; it is not marked stale, no two reports of it differ, and
      under an age limit it was observed no longer ago than that. */
  predicate Confirmed(s: State, field: string, expected: Value, maxAge: Option<real>, now: real) {
    && Raw(s, field).Some? && PyEq(Raw(s, field).value, expected)
    && field !in s.stale
    && (field in s.conflicts ==> forall a, b :: a in s.conflicts[field] && b in s.conflicts[field] ==> a == b)
    && (maxAge.Some? ==> StampOf(s, field).At? && now - StampOf(s, field).t <= maxAge.value)
  }

  /** What the guard guarantees about the evidence a command is sent on. */
  predicate SafeToSend(reg: Skillset, skill: string, args: Args, s: State, now: real) {
    match Lookup(reg, skill)
    case None => false
    case Some(sk) =>
      && (forall p :: p in sk.preconditions ==> Confirmed(s, Format(p.field, args), p.expected, p.maxAge, now))
      && Raw(s, EMERGENCY) != Some(Bool(true))
      && NoFault(s)
      && s.active * sk.resources == {}
  }

  predicate SentSafely(x: Setup, base: nat, log: Log, k: nat)
    requires k < |log| && log[k].Commanded?
  {
    && base < k && log[k - 1].Observed?
    && SafeToSend(x.Reg(), log[k].skill, log[k].args, log[k - 1].state, x.backend.clock(log[..k], ForGuard))
  }

  /** Every command from `base` on immediately follows an observation that shows it safe. */
  predicate GuardedLog(x: Setup, base: nat, log: Log) {
    forall k :: base <= k < |log| && log[k].Commanded? ==> SentSafely(x, base, log, k)
  }

  /** The guard allows a call exactly on safe evidence. */
  lemma GuardExact(reg: Skillset, sk: Skill, step: Step, s: State, now: real)
    requires Lookup(reg, step.skill) == Some(sk)
    ensures GuardAllows(sk, step, s, now) <==> SafeToSend(reg, step.skill, step.arguments, s, now)
  {
    CheckStepExact(step.id, sk, s);
    forall p | p in sk.preconditions
      ensures Evaluate(p, s, step.arguments, now).Satisfied() <==>
              Confirmed(s, Format(p.field, step.arguments), p.expected, p.maxAge, now)
    {
      EpistemicExact(s, Format(p.field, step.arguments), p.maxAge, now);
    }
  }

  lemma GuardMeansSafe(x: Setup, sk: Skill, step: Step, s: State, log: Log)
    requires x.flags.runtimeGuard && Guarded(x, sk, step, s, log)
    requires Lookup(x.Reg(), step.skill) == Some(sk)
    ensures SafeToSend(x.Reg(), sk.name, step.arguments, s, x.backend.clock(log, ForGuard))
  {
    GuardExact(x.Reg(), sk, step, s, x.backend.clock(log, ForGuard));
  }

  lemma GuardedExtends(x: Setup, base: nat, a: Log, b: Log)
    requires GuardedLog(x, base, a) && |a| <= |b| && b[..|a|] == a
    requires forall k :: |a| <= k < |b| && b[k].Commanded? ==> SentSafely(x, base, b, k)
    ensures GuardedLog(x, base, b)
  {
    forall k | base <= k < |a| && b[k].Commanded? ensures SentSafely(x, base, b, k) {
      assert a[k] == b[k] && a[k - 1] == b[k - 1] && a[..k] == b[..k];
    }
  }

  lemma AttemptLog(x: Setup, c: Control)
    requires c.mode.Inner?
    ensures var e := Attempted(x, c);
            && |e.log| == |c.log| + 2 && e.log[..|c.log|] == c.log
            && e.log[|c.log|].Commanded?
            && e.log[|c.log|].skill == c.mode.skill.name && e.log[|c.log|].args == c.mode.step.arguments
            && e.log[|c.log| + 1].Observed?
  {
  }

  lemma AttemptGuarded(x: Setup, base: nat, c: Control)
    requires x.flags.runtimeGuard && c.mode.Inner? && AtHead(x, base, c) && GuardedLog(x, base, c.log)
    ensures GuardedLog(x, base, Attempted(x, c).log)
  {
    var e := Attempted(x, c);
    AttemptLog(x, c);
    GuardMeansSafe(x, c.mode.skill, c.mode.step, c.mode.before, c.log);
    assert SentSafely(x, base, e.log, |c.log|);
    GuardedExtends(x, base, c.log, e.log);
  }

  lemma GuardedKept(x: Setup, base: nat, c: Control)
    requires x.flags.runtimeGuard && AtHead(x, base, c) && GuardedLog(x, base, c.log)
    ensures GuardedLog(x, base, Advance(x, c).log)
  {
    hide Advance, Attempted, SentSafely;
    LogKinds(x, c);
    var a, b := Base(x, c), Advance(x, c).log;
    if c.mode.Inner? { AttemptGuarded(x, base, c); }
    if Watched(a, b) {
      GuardedExtends(x, base, a, b);
    } else {
      GuardedExtends(x, base, a, b[..|b| - 1]);
      GuardedExtends(x, base, b[..|b| - 1], b);
    }
  }

  // ---- Results and the log ----------------------------------------------------------------------------

  /** A recorded attempt is what the log shows: the verifier compared the observation right
      before the command, the one the guard allowed, with the one right after it. */
  predicate Attested(x: Setup, base: nat, log: Log, r: Result) {
    && base < r.at && r.at + 1 < |log|
    && log[r.at].Commanded? && log[r.at].skill == r.skill && log[r.at].args == r.args
    && log[r.at - 1] == Observed(r.before) && log[r.at + 1].Observed?
    && match Lookup(x.Reg(), r.skill)
       case None => false
       case Some(sk) =>
         var after := log[r.at + 1].state;
         && r.after == Marked(after, if r.achieved then "success" else "failure")
         && r.accepted == (log[r.at].receipt.accepted && log[r.at].receipt.elapsed <= sk.timeout)
         && r.achieved == (r.accepted &&
              (x.flags.verifyOutcomes ==> OutcomeVerified(sk, r.args, r.before, after)))
  }

  /** Every result is attested, in log order, and there is one for every command. */
  predicate ResultsAttested(x: Setup, base: nat, log: Log, results: seq<Result>) {
    && (forall i :: 0 <= i < |results| ==> Attested(x, base, log, results[i]))
    && (forall i, j :: 0 <= i < j < |results| ==> results[i].at < results[j].at)
    && (forall k :: base <= k < |log| && log[k].Commanded? ==>
          exists i :: 0 <= i < |results| && results[i].at == k)
  }

  lemma AttestedExtends(x: Setup, base: nat, a: Log, b: Log, r: Result)
    requires Attested(x, base, a, r) && |a| <= |b| && b[..|a|] == a
    ensures Attested(x, base, b, r)
  {
    assert a[r.at - 1] == b[r.at - 1] && a[r.at] == b[r.at] && a[r.at + 1] == b[r.at + 1];
  }

  lemma ResultsExtend(x: Setup, base: nat, a: Log, b: Log, results: seq<Result>)
    requires ResultsAttested(x, base, a, results) && |a| <= |b| && b[..|a|] == a
    requires forall k :: |a| <= k < |b| ==> !b[k].Commanded?
    ensures ResultsAttested(x, base, b, results)
  {
    forall i | 0 <= i < |results| ensures Attested(x, base, b, results[i]) {
      AttestedExtends(x, base, a, b, results[i]);
    }
    forall k | base <= k < |b| && b[k].Commanded?
      ensures exists i :: 0 <= i < |results| && results[i].at == k
    {
      assert a[k] == b[k];
    }
  }

  lemma AttemptIsAttested(x: Setup, base: nat, c: Control)
    requires c.mode.Inner? && AtHead(x, base, c)
    ensures var e := Attempted(x, c);
            && |e.results| == |c.results| + 1 && e.results[..|c.results|] == c.results
            && e.results[|c.results|].at == |c.log|
            && Attested(x, base, e.log, e.results[|c.results|])
  {
    AttemptLog(x, c);
    assert Attempted(x, c).log[|c.log| - 1] == c.log[|c.log| - 1];
  }

  lemma AttestedWithin(x: Setup, base: nat, log: Log, r: Result)
    requires Attested(x, base, log, r)
    ensures r.at < |log|
  {
  }

  lemma AttemptAttested(x: Setup, base: nat, c: Control)
    requires c.mode.Inner? && AtHead(x, base, c) && ResultsAttested(x, base, c.log, c.results)
    ensures ResultsAttested(x, base, Attempted(x, c).log, Attempted(x, c).results)
  {
    hide Attempted, Attested;
    var e := Attempted(x, c);
    AttemptLog(x, c);
    AttemptIsAttested(x, base, c);
    var n := |c.results|;
    forall i | 0 <= i < n
      ensures Attested(x, base, e.log, e.results[i]) && e.results[i].at < |c.log|
    {
      assert e.results[i] == c.results[i];
      AttestedWithin(x, base, c.log, c.results[i]);
      AttestedExtends(x, base, c.log, e.log, c.results[i]);
    }
    forall k | base <= k < |e.log| && e.log[k].Commanded?
      ensures exists i :: 0 <= i < |e.results| && e.results[i].at == k
    {
      if k < |c.log| {
        assert c.log[k] == e.log[k];
        var i :| 0 <= i < n && c.results[i].at == k;
        assert e.results[i] == c.results[i];
      } else {
        assert e.results[n].at == |c.log|;
      }
    }
  }

  /** Results after an iteration: those of the attempt, or none new. */
  lemma ResultKinds(x: Setup, c: Control)
    ensures Advance(x, c).results == if c.mode.Inner? then Attempted(x, c).results else c.results
  {
    hide Advance, Attempted, Guarded, Denied, DeniedNow, FromReplanner, SuffixFromRepair, Watched, CountReground,
         GoalsMet;
    AdvanceKinds(x, c);
  }

  lemma AttestedKept(x: Setup, base: nat, c: Control)
    requires AtHead(x, base, c) && ResultsAttested(x, base, c.log, c.results)
    ensures ResultsAttested(x, base, Advance(x, c).log, Advance(x, c).results)
  {
    hide Advance, Attempted, Attested;
    LogKinds(x, c);
    ResultKinds(x, c);
    var a, b := Base(x, c), Advance(x, c).log;
    if c.mode.Inner? { AttemptAttested(x, base, c); }
    if Watched(a, b) {
      ResultsExtend(x, base, a, b, Advance(x, c).results);
    } else {
      ResultsExtend(x, base, a, b[..|b| - 1], Advance(x, c).results);
      ResultsExtend(x, base, b[..|b| - 1], b, Advance(x, c).results);
    }
  }

  // ---- Execution history ---------------------------------------------------------------------------------

  type Call = (string, Args)

  function AchievedCalls(results: seq<Result>): seq<Call> {
    if results == [] then []
    else
      var r := results[|results| - 1];
      AchievedCalls(results[..|results| - 1]) + (if r.achieved then [(r.skill, r.args)] else [])
  }

  function Calls(steps: seq<Step>): seq<Call> {
    seq(|steps|, i requires 0 <= i < |steps| => (steps[i].skill, steps[i].arguments))
  }

  /** The achieved results since the last adopted replan are exactly the steps passed, and a
      run that succeeds has passed them all. */
  predicate History(c: Control) {
    && c.epoch <= |c.results|
    && c.index <= |c.plan.steps|
    && (c.mode == Final(true) ==> c.index == |c.plan.steps|)
    && AchievedCalls(c.results[c.epoch..]) == Calls(c.plan.steps[..c.index])
  }

  lemma AchievedOne(results: seq<Result>, r: Result)
    ensures AchievedCalls(results + [r]) ==
            AchievedCalls(results) + (if r.achieved then [(r.skill, r.args)] else [])
  {
    assert (results + [r])[..|results|] == results;
  }

  lemma AttemptHistory(x: Setup, base: nat, c: Control)
    requires c.mode.Inner? && AtHead(x, base, c) && History(c)
    ensures var e := Attempted(x, c);
            && c.epoch <= |e.results|
            && AchievedCalls(e.results[c.epoch..]) ==
               Calls(c.plan.steps[..if Achieved(x, c) then c.index + 1 else c.index])
  {
    var e := Attempted(x, c);
    var n := |c.results|;
    var r := e.results[n];
    assert e.results == c.results + [r];
    assert e.results[c.epoch..] == c.results[c.epoch..] + [r];
    AchievedOne(c.results[c.epoch..], r);
    assert Calls(c.plan.steps[..c.index + 1]) ==
           Calls(c.plan.steps[..c.index]) + [(c.mode.step.skill, c.mode.step.arguments)];
  }

  lemma HistoryKept(x: Setup, base: nat, c: Control)
    requires AtHead(x, base, c) && History(c)
    ensures History(Advance(x, c))
  {
    AdvanceKinds(x, c);
    var d := Advance(x, c);
    if c.mode.Inner? {
      AttemptHistory(x, base, c);
      HistoryInner(x, base, c, d);
    } else if c.mode.Outer? {
      HistoryOuter(x, c, d);
    }
  }

  lemma HistoryOuter(x: Setup, c: Control, d: Control)
    requires History(c) && FromOuter(x, c, d)
    ensures History(d)
  {
    if Resuffixed(x, c, d) {
      assert d.plan.steps[..c.index] == c.plan.steps[..c.index];
    } else if Entered(x, c, d) {
    } else if Reobserved(x, c, d) {
    }
  }

  lemma HistoryInner(x: Setup, base: nat, c: Control, d: Control)
    requires AtHead(x, base, c) && c.mode.Inner? && FromInner(x, c, d)
    requires c.epoch <= |Attempted(x, c).results|
    requires AchievedCalls(Attempted(x, c).results[c.epoch..]) ==
             Calls(c.plan.steps[..if Achieved(x, c) then c.index + 1 else c.index])
    ensures History(d)
  {
    if Replanned(x, c, d) {
      assert d.results[d.epoch..] == [];
      assert d.plan.steps[..0] == [];
    } else if Progressed(x, c, d) {
    } else if Retried(x, c, d) {
    } else if Regrounded(x, c, d) {
    }
  }

  // ---- Stopping ---------------------------------------------------------------------------------------------

  predicate NeverStopped(base: nat, log: Log) {
    forall k :: base <= k < |log| ==> log[k] != Stopped
  }

  predicate NothingSent(base: nat, log: Log) {
    forall k :: base <= k < |log| ==> !log[k].Commanded? && log[k] != Stopped
  }

  /** The stop is the last event and the only one; the trace ends with it. */
  predicate StoppedLast(base: nat, c: Control) {
    && base < |c.log| && c.log[|c.log| - 1] == Stopped
    && NeverStopped(base, c.log[..|c.log| - 1])
    && |c.decisions| > 0 && c.decisions[|c.decisions| - 1] == STOP
  }

  /** A launched run that has failed has stopped, once, at the end; any other never did. */
  predicate StopDiscipline(base: nat, c: Control) {
    if c.mode == Final(false) then StoppedLast(base, c) else NeverStopped(base, c.log)
  }

  lemma StopKept(x: Setup, base: nat, c: Control)
    requires AtHead(x, base, c) && StopDiscipline(base, c)
    ensures StopDiscipline(base, Advance(x, c))
  {
    AdvanceKinds(x, c);
    var d := Advance(x, c);
    if c.mode.Inner? {
      AttemptLog(x, c);
      var e := Attempted(x, c);
      assert NeverStopped(base, e.log) by {
        forall k | base <= k < |e.log| ensures e.log[k] != Stopped {
          if k < |c.log| { assert e.log[k] == c.log[k]; }
        }
      }
      StopInner(x, base, c, d);
    } else if c.mode.Outer? {
      StopOuter(x, base, c, d);
    }
  }

  lemma WatchedNeverStops(base: nat, a: Log, b: Log)
    requires NeverStopped(base, a) && Watched(a, b)
    ensures NeverStopped(base, b)
  {
    forall k | base <= k < |b| ensures b[k] != Stopped {
      if k < |a| { assert a[k] == b[k]; }
    }
  }

  lemma StopOuter(x: Setup, base: nat, c: Control, d: Control)
    requires base <= |c.log| && c.mode.Outer? && NeverStopped(base, c.log) && FromOuter(x, c, d)
    ensures StopDiscipline(base, d)
  {
    if StoppedAfter(c, d) {
      WatchedNeverStops(base, c.log, d.log[..|d.log| - 1]);
    } else if Entered(x, c, d) {
    } else if Reobserved(x, c, d) {
      WatchedNeverStops(base, c.log, d.log);
    } else if Resuffixed(x, c, d) {
      WatchedNeverStops(base, c.log, d.log);
    }
  }

  lemma StopInner(x: Setup, base: nat, c: Control, d: Control)
    requires c.mode.Inner? && base <= |c.log|
    requires NeverStopped(base, Attempted(x, c).log) && FromInner(x, c, d)
    ensures StopDiscipline(base, d)
  {
    var e := Attempted(x, c);
    AttemptLog(x, c);
    if StoppedAfter(e, d) {
      WatchedNeverStops(base, e.log, d.log[..|d.log| - 1]);
    } else if Replanned(x, c, d) {
      WatchedNeverStops(base, e.log, d.log);
    } else if Progressed(x, c, d) {
    } else if Retried(x, c, d) {
    } else if Regrounded(x, c, d) {
    }
  }

  // ---- Counting commands --------------------------------------------------------------------------------------

  function CountAchieved(results: seq<Result>): nat {
    if results == [] then 0
    else CountAchieved(results[..|results| - 1]) + if results[|results| - 1].achieved then 1 else 0
  }

  lemma CountAchievedOne(results: seq<Result>, r: Result)
    ensures CountAchieved(results + [r]) == CountAchieved(results) + if r.achieved then 1 else 0
  {
    assert (results + [r])[..|results|] == results;
  }

  /** Entries of the attempt loop that have ended. */
  function Entries(c: Control): nat { CountAchieved(c.results) + CountReground(c.decisions) + c.replans }

  /** Attempts of the entry that has not ended, or that ended the run. */
  function Pending(x: Setup, c: Control): nat {
    match c.mode
    case Outer => 0
    case Inner(_, _, _, attempt) => if attempt > 0 then attempt - 1 else 0
    case Final(_) => x.config.maxRetries + 1
  }

  predicate Budgeted(x: Setup, c: Control) {
    |c.results| <= Times(x.config.maxRetries + 1, Entries(c)) + Pending(x, c)
  }

  lemma TimesNext(k: nat, n: nat)
    ensures Times(k, n + 1) == Times(k, n) + k
  {
  }

  lemma BudgetKept(x: Setup, base: nat, c: Control)
    requires AtHead(x, base, c) && Budgeted(x, c)
    ensures Budgeted(x, Advance(x, c))
  {
    AdvanceKinds(x, c);
    var d := Advance(x, c);
    if c.mode.Inner? {
      BudgetInner(x, base, c, d);
    } else if c.mode.Outer? {
      BudgetOuter(x, c, d);
    }
  }

  lemma BudgetOuter(x: Setup, c: Control, d: Control)
    requires c.mode.Outer? && Budgeted(x, c) && FromOuter(x, c, d)
    ensures Budgeted(x, d)
  {
    CountOne(c.decisions, OBSERVE);
    CountOne(c.decisions, REPAIR);
    if Entered(x, c, d) {
    } else if Reobserved(x, c, d) {
    } else if Resuffixed(x, c, d) {
    } else if StoppedAfter(c, d) {
    }
  }

  lemma AttemptCounts(x: Setup, c: Control)
    requires c.mode.Inner?
    ensures var e := Attempted(x, c);
            && |e.results| == |c.results| + 1
            && e.results == c.results + [e.results[|c.results|]]
            && SameWork(c.(results := e.results, last := e.last), e) && e.decisions == c.decisions
  {
  }

  lemma BudgetInner(x: Setup, base: nat, c: Control, d: Control)
    requires c.mode.Inner? && AtHead(x, base, c) && Budgeted(x, c) && FromInner(x, c, d)
    ensures Budgeted(x, d)
  {
    hide Attempted, FromReplanner, Denied, Guarded, Look, Times;
    var e := Attempted(x, c);
    AttemptCounts(x, c);
    CountAchievedOne(c.results, e.results[|c.results|]);
    CountOne(c.decisions, LOCAL_RETRY);
    CountOne(c.decisions + [LOCAL_RETRY], REGROUND);
    CountOne(c.decisions, REPLAN);
    TimesNext(x.config.maxRetries + 1, Entries(c));
    if Progressed(x, c, d) {
    } else if Retried(x, c, d) {
    } else if Regrounded(x, c, d) {
    } else if Replanned(x, c, d) {
    } else if StoppedAfter(e, d) {
    }
  }

  // ---- Whole runs -----------------------------------------------------------------------------------------------

  /** Everything kept from a launch on. */
  predicate Kept(x: Setup, base: nat, c: Control) {
    && AtHead(x, base, c)
    && (x.flags.runtimeGuard ==> GuardedLog(x, base, c.log))
    && ResultsAttested(x, base, c.log, c.results)
    && History(c)
    && StopDiscipline(base, c)
    && Budgeted(x, c)
  }

  lemma LaunchKept(x: Setup, plan: Plan, log: Log, last: Option<string>, c: Control)
    requires Fresh(plan, log, last, c) && c.mode.Outer?
    ensures Kept(x, |log|, c)
  {
    assert c.results[c.epoch..] == [] && c.plan.steps[..0] == [];
  }

  lemma KeptOnce(x: Setup, base: nat, c: Control)
    requires Kept(x, base, c)
    ensures Kept(x, base, Advance(x, c))
  {
    AtHeadKept(x, base, c);
    if x.flags.runtimeGuard { GuardedKept(x, base, c); }
    AttestedKept(x, base, c);
    HistoryKept(x, base, c);
    StopKept(x, base, c);
    BudgetKept(x, base, c);
  }

  lemma {:induction false} KeptAlways(x: Setup, base: nat, c: Control, n: nat)
    requires Kept(x, base, c)
    ensures Kept(x, base, Iterate(x, c, n))
  {
    hide Advance, Kept;
    if n > 0 {
      KeptAlways(x, base, c, n - 1);
      KeptOnce(x, base, Iterate(x, c, n - 1));
    }
  }

  lemma {:induction false} FinalStays(x: Setup, c: Control, n: nat)
    requires c.mode.Final?
    ensures Iterate(x, c, n) == c
  {
    hide OuterStep, InnerStep;
    if n > 0 { FinalStays(x, c, n - 1); }
  }

  /** A run either is refused in preflight, for good, or keeps everything above for ever. */
  lemma Runs(x: Setup, plan: Plan, log: Log, last: Option<string>, n: nat)
    ensures var c := Start(x, plan, log, last);
            if c.mode.Outer? then Kept(x, |log|, After(x, plan, log, last, n))
            else c.mode == Final(false) && After(x, plan, log, last, n) == c && Watched(log, c.log)
  {
    var c := Start(x, plan, log, last);
    StartFresh(x, plan, log, last);
    if c.mode.Outer? {
      LaunchKept(x, plan, log, last, c);
      KeptAlways(x, |log|, c, n);
    } else {
      FinalStays(x, c, n);
    }
  }

  /** Guarded dispatch. With the runtime guard on, in every run against any backend, each
      command directly follows an observation in which every precondition is known, in age
      and equal to its expected value, nothing is faulted or stopped, and no needed resource
      is busy. */
  lemma GuardedDispatch(x: Setup, plan: Plan, log: Log, last: Option<string>, n: nat)
    requires x.flags.runtimeGuard
    ensures GuardedLog(x, |log|, After(x, plan, log, last, n).log)
  {
    Runs(x, plan, log, last, n);
  }

  /** Every result is backed by the log, and its verdict compares exactly the observation
      before the command with the one after it. */
  lemma EveryResultAttested(x: Setup, plan: Plan, log: Log, last: Option<string>, n: nat)
    ensures var c := After(x, plan, log, last, n);
            ResultsAttested(x, |log|, c.log, c.results)
  {
    Runs(x, plan, log, last, n);
    StartFresh(x, plan, log, last);
  }

  /** Execution history, at every loop head: through retries, regrounding and suffix repairs,
      the achieved results since the last adopted replan are the steps passed, in order. */
  lemma HistoryIsPlanPrefix(x: Setup, plan: Plan, log: Log, last: Option<string>, n: nat)
    ensures History(After(x, plan, log, last, n))
  {
    Runs(x, plan, log, last, n);
    StartFresh(x, plan, log, last);
    var c := Start(x, plan, log, last);
    assert c.results[c.epoch..] == [] && c.plan.steps[..0] == [];
  }

  /** So a success report means that every step of the final plan was achieved, in order. */
  lemma SuccessMeansPlanAchieved(x: Setup, plan: Plan, log: Log, last: Option<string>, n: nat)
    ensures var c := After(x, plan, log, last, n);
            c.mode == Final(true) ==>
              c.epoch <= |c.results| && AchievedCalls(c.results[c.epoch..]) == Calls(c.plan.steps)
  {
    HistoryIsPlanPrefix(x, plan, log, last, n);
    var c := After(x, plan, log, last, n);
    if c.mode == Final(true) { assert c.plan.steps[..|c.plan.steps|] == c.plan.steps; }
  }

  /** Stop discipline. A run refused in preflight sends nothing at all. A launched run that
      fails stops the backend exactly once, as its last action, and says so last in the
      trace. A successful run never does. */
  lemma StopsExactlyOnFailure(x: Setup, plan: Plan, log: Log, last: Option<string>, n: nat)
    ensures var launched := Start(x, plan, log, last).mode.Outer?;
            var c := After(x, plan, log, last, n);
            && (!launched ==> c.mode == Final(false) && NothingSent(|log|, c.log))
            && (launched && c.mode == Final(false) ==> StoppedLast(|log|, c))
            && (c.mode != Final(false) ==> NeverStopped(|log|, c.log))
  {
    Runs(x, plan, log, last, n);
  }

  /** Every run sends at most (maxRetries + 1) commands per completed step, REGROUND and
      adopted replan, and one such round more. */
  lemma CommandBound(x: Setup, plan: Plan, log: Log, last: Option<string>, n: nat)
    ensures var c := After(x, plan, log, last, n);
            |c.results| <= (x.config.maxRetries + 1) *
              (CountAchieved(c.results) + CountReground(c.decisions) + c.replans + 1)
  {
    hide Advance, Start, GuardedLog, ResultsAttested, History, StopDiscipline;
    Runs(x, plan, log, last, n);
    StartFresh(x, plan, log, last);
    var c := After(x, plan, log, last, n);
    TimesNext(x.config.maxRetries + 1, Entries(c));
  }
}
