/** The closed execution loop (`execution/skill_executor.py`) as a state machine over its
    loop heads, against an arbitrary backend. */
module Executor {
  import opened Values
  import opened RobotState
  import opened Templates
  import opened Skills
  import opened Registry
  import opened Capability
  import opened Grounder
  import opened Repairer

  // ---- The backend ----------------------------------------------------------------------------

  /** `elapsed` is the time the call took. */
  datatype Receipt = Receipt(accepted: bool, timedOut: bool, elapsed: real)

  /** Observations are recorded as the state manager hands them on. */
  datatype Event =
    | Observed(state: State)
    | Acquired(fields: set<string>, state: State)
    | Commanded(skill: string, args: Args, receipt: Receipt)
    | Stopped

  type Log = seq<Event>

  /** Why the clock is read: readings between two backend events may differ. */
  datatype Reading = ForGround | ForRepair | ForReground | ForGuard | ForSuffix

  /** A backend may answer anything, depending on everything that happened. */
  datatype Backend = Backend(
    observe: Log -> State,
    acquire: (Log, set<string>) -> State,
    command: (Log, string, Args) -> Receipt,
    clock: (Log, Reading) -> real,
    capabilities: Capabilities)

  // ---- Configuration ----------------------------------------------------------------------------

  type ReplanFunction = (Plan, State) -> Option<Plan>

  datatype Config = Config(reg: Skillset, limits: Limits, maxRetries: nat, maxReplans: nat,
                           maxObservations: nat, replanner: Option<ReplanFunction>)

  datatype Flags = Flags(allowRepair: bool, verifyOutcomes: bool, allowRecovery: bool,
                         groundPlan: bool, runtimeGuard: bool, activeObservation: bool,
                         capabilityPreflight: bool)

  datatype Setup = Setup(config: Config, flags: Flags, backend: Backend)
  {
    function Reg(): Skillset { config.reg }

    /** The capabilities grounding may use. */
    function Caps(): Option<Capabilities> {
      if flags.capabilityPreflight then Some(backend.capabilities) else None
    }
  }

  // ---- Decisions -----------------------------------------------------------------------------------

  datatype Decision = EXECUTE | OBSERVE | REPAIR | LOCAL_RETRY | REPLAN | SAFE_STOP | STOP | REGROUND

  datatype Action = Retry | Replace | SafeStop

  /** "retry" is a synonym of "local_retry". */
  predicate MayRetry(policy: seq<string>) { "local_retry" in policy || "retry" in policy }

  /** `RecoveryManager.decide` */
  function Decide(maxRetries: nat, attempt: nat, mayReplan: bool, policy: seq<string>): (r: Action)
    ensures r == Retry <==> MayRetry(policy) && attempt <= maxRetries
    ensures r == Replace ==> "replan" in policy && mayReplan
    ensures r == SafeStop ==> !("replan" in policy && mayReplan)
  {
    if MayRetry(policy) && attempt <= maxRetries then Retry
    else if "replan" in policy && mayReplan then Replace
    else SafeStop
  }

  /** `RuntimeGuard.check(...).allowed` */
  predicate GuardAllows(sk: Skill, step: Step, s: State, now: real) {
    PreconditionsHold(sk, s, step.arguments, now) && CheckStep(step.id, sk, s) == []
  }

  // ---- Goals ---------------------------------------------------------------------------------------

  const REPORT_TOLERANCE := 0.001

  function GoalFold(reg: Skillset, steps: seq<Step>, s: State, goals: Goals): Goals
    decreases |steps|
  {
    if steps == [] then goals
    else if !Predictable(reg, steps[0], s) then GoalFold(reg, steps[1..], s, goals)
    else GoalFold(reg, steps[1..], Project(reg, s, steps[0]), StepGoals(reg, goals, steps[0], s))
  }

  /** `_with_goal_state` */
  function WithGoalState(reg: Skillset, plan: Plan, s: State): Plan {
    if plan.metadata.goals.Some? then plan
    else plan.(metadata := plan.metadata.(goals := Some(GoalFold(reg, plan.steps, s, [])),
                                          projected := true))
  }

  predicate GoalMet(s: State, goal: (string, Value)) {
    Epistemic(s, goal.0).status == Known && Within(Raw(s, goal.0), goal.1, REPORT_TOLERANCE)
  }

  /** `_goal_mismatches` is empty. */
  predicate GoalsMet(plan: Plan, s: State) {
    plan.metadata.goals.Some? ==> forall g :: g in plan.metadata.goals.value ==> GoalMet(s, g)
  }

  // ---- Issues that observation or repair may resolve ------------------------------------------------

  function FindStep(steps: seq<Step>, id: string): Option<Step> {
    if steps == [] then None
    else if steps[0].id == id then Some(steps[0])
    else FindStep(steps[1..], id)
  }

  function PolicyForIssue(reg: Skillset, plan: Plan, id: string): seq<string> {
    match FindStep(plan.steps, id)
    case None => []
    case Some(step) =>
      match Lookup(reg, step.skill)
      case None => []
      case Some(sk) => sk.policy
  }

  predicate Observable(reg: Skillset, plan: Plan, caps: Capabilities, i: Issue) {
    && i.field.Some? && i.field.value != ""
    && i.knowledge.Some? && i.knowledge.value != Known
    && caps.CanRefresh(i.field.value)
    && "observe" in PolicyForIssue(reg, plan, i.stepId)
  }

  function ObservableFields(reg: Skillset, plan: Plan, report: Report, caps: Capabilities): set<string> {
    set i | i in report.issues && Observable(reg, plan, caps, i) :: i.field.value
  }

  predicate RepairPermitted(reg: Skillset, plan: Plan, report: Report) {
    forall i :: i in report.issues && i.repairable ==> "repair" in PolicyForIssue(reg, plan, i.stepId)
  }

  // ---- Control state --------------------------------------------------------------------------------

  /** One attempt; `at` is a history variable: where the log records its command. */
  datatype Result = Result(skill: string, args: Args, accepted: bool, achieved: bool,
                           before: State, after: State, timedOut: bool, attempt: nat, at: nat)

  /** Outer: head of the step loop. Inner: head of the attempt loop. */
  datatype Mode =
    | Outer
    | Inner(step: Step, skill: Skill, before: State, attempt: nat)
    | Final(success: bool)

  /** History of an adopted replan: the skill that failed, and the log length then. */
  datatype Adoption = Adoption(skill: string, at: nat)

  /** `last` is the state manager's last skill result. `adopted` and `epoch` (the number of
      results at the last adopted replan) are history variables. */
  datatype Control = Control(
    mode: Mode, plan: Plan, index: nat, replans: nat, runtimeRepairs: nat,
    decision: Decision, decisions: seq<Decision>, results: seq<Result>,
    log: Log, last: Option<string>,
    adopted: seq<Adoption>, epoch: nat)

  // ---- State manager ------------------------------------------------------------------------------------

  function Overlay(s: State, last: Option<string>): State {
    if Raw(s, LAST_RESULT).None? && last.Some? then Copy(s, map[LAST_RESULT := Some(Str(last.value))])
    else s
  }

  /** `mark_result` */
  function Marked(s: State, result: string): State {
    Copy(s, map[LAST_RESULT := Some(Str(result))])
  }

  /** What `refresh` returns here. */
  function Look(x: Setup, c: Control): State { Overlay(x.backend.observe(c.log), c.last) }

  function Saw(c: Control, s: State): Control { c.(log := c.log + [Observed(s)]) }

  function Decided(c: Control, d: Decision): Control { c.(decisions := c.decisions + [d]) }

  /** Safe stop and a failing report. */
  function Halt(c: Control): Control {
    c.(log := c.log + [Stopped], decisions := c.decisions + [STOP], mode := Final(false))
  }

  // ---- Preflight ------------------------------------------------------------------------------------------

  /** The plan is refused before anything is sent. */
  function Refuse(c: Control): Control { c.(mode := Final(false)) }

  function Launch(c: Control, d: Decision, ds: seq<Decision>): Control {
    c.(mode := Outer, decision := d, decisions := if ds == [] then [d] else ds)
  }

  function PreflightEnd(x: Setup, c: Control, s: State, report: Report): Control {
    if report.valid then Launch(c, if c.decisions == [] then EXECUTE else OBSERVE, c.decisions)
    else if report.RequiresStop() || !x.flags.allowRepair || !RepairPermitted(x.Reg(), c.plan, report) then
      Refuse(c)
    else
      match Repair(x.Reg(), x.config.limits, x.backend.clock(c.log, ForRepair), c.plan, s, false)
      case None => Refuse(c)
      case Some(r) =>
        if Ground(x.Reg(), x.Caps(), x.backend.clock(c.log, ForReground), r, s).valid then
          Launch(c.(plan := r), REPAIR, c.decisions + [REPAIR])
        else Refuse(c.(plan := r))
  }

  /** Ground, and acquire fresh evidence at most `maxObservations` times. */
  function PreflightLoop(x: Setup, c: Control, s: State, attempts: nat): Control
    decreases x.config.maxObservations - attempts
  {
    var report := Ground(x.Reg(), x.Caps(), x.backend.clock(c.log, ForGround), c.plan, s);
    var fields := ObservableFields(x.Reg(), c.plan, report, x.backend.capabilities);
    if !report.valid && !report.RequiresStop() && x.flags.activeObservation &&
       attempts < x.config.maxObservations && fields != {}
    then
      var t := Overlay(x.backend.acquire(c.log, fields), c.last);
      PreflightLoop(x, Decided(c.(log := c.log + [Acquired(fields, t)]), OBSERVE), t, attempts + 1)
    else
      PreflightEnd(x, c, s, report)
  }

  function Begin(plan: Plan, log: Log, last: Option<string>): Control {
    Control(Outer, plan, 0, 0, 0, EXECUTE, [], [], log, last, [], 0)
  }

  function Start(x: Setup, plan: Plan, log: Log, last: Option<string>): Control {
    var c := Begin(plan, log, last);
    var s := Look(x, c);
    var c1 := Saw(c, s).(plan := WithGoalState(x.Reg(), plan, s));
    if x.flags.groundPlan then PreflightLoop(x, c1, s, 0) else Launch(c1, EXECUTE, [])
  }

  // ---- The step loop -------------------------------------------------------------------------------------

  function Finish(x: Setup, c: Control): Control {
    if x.flags.verifyOutcomes then
      var s := Look(x, c);
      var c1 := Saw(c, s);
      if GoalsMet(c.plan, s) then c1.(mode := Final(true)) else Halt(c1)
    else c.(mode := Final(true))
  }

  /** The runtime guard refused: acquire evidence, repair the unexecuted suffix, or stop. */
  function GuardFailed(x: Setup, c: Control, sk: Skill, before: State): Control
    requires c.index <= |c.plan.steps|
  {
    var remaining := c.plan.(steps := c.plan.steps[c.index..]);
    var report := Ground(x.Reg(), x.Caps(), x.backend.clock(c.log, ForSuffix), remaining, before);
    var fields := ObservableFields(x.Reg(), remaining, report, x.backend.capabilities);
    if x.flags.activeObservation && "observe" in sk.policy &&
       c.runtimeRepairs < x.config.maxObservations && fields != {}
    then
      var t := Overlay(x.backend.acquire(c.log, fields), c.last);
      Decided(c.(log := c.log + [Acquired(fields, t)], runtimeRepairs := c.runtimeRepairs + 1), OBSERVE)
    else if x.flags.allowRepair && "repair" in sk.policy && !report.RequiresStop() && c.runtimeRepairs < 2 then
      SuffixRepair(x, c, remaining,
        Repair(x.Reg(), x.config.limits, x.backend.clock(c.log, ForRepair), remaining, before, false))
    else Halt(c)
  }

  /** A repaired suffix is adopted if it differs from the unexecuted one. */
  function SuffixRepair(x: Setup, c: Control, remaining: Plan, repaired: Option<Plan>): Control
    requires c.index <= |c.plan.steps|
  {
    if repaired.Some? && repaired.value.steps != remaining.steps then
      Decided(c.(plan := c.plan.(steps := c.plan.steps[..c.index] + repaired.value.steps,
                                 revision := if c.plan.revision >= repaired.value.revision
                                             then c.plan.revision else repaired.value.revision),
                 runtimeRepairs := c.runtimeRepairs + 1,
                 decision := if c.decision == EXECUTE then REPAIR else c.decision),
              REPAIR)
    else Halt(c)
  }

  function OuterStep(x: Setup, c: Control): Control {
    if c.index >= |c.plan.steps| then Finish(x, c)
    else
      var step := c.plan.steps[c.index];
      if !Callable(x.Reg(), step) then Halt(c)
      else
        var sk := Lookup(x.Reg(), step.skill).value;
        var before := Look(x, c);
        var c1 := Saw(c, before);
        if x.flags.runtimeGuard && !GuardAllows(sk, step, before, x.backend.clock(c1.log, ForGuard)) then
          GuardFailed(x, c1, sk, before)
        else c1.(mode := Inner(step, sk, before, 1))
  }

  // ---- One attempt -----------------------------------------------------------------------------------------

  /** The receipt the executor acts on: exceeding the skill timeout voids it. */
  function Timed(sk: Skill, r: Receipt): Receipt {
    if r.elapsed > sk.timeout then r.(accepted := false, timedOut := true) else r
  }

  /** Command, observe, verify, record. */
  function Attempted(x: Setup, c: Control): Control
    requires c.mode.Inner?
  {
    var m := c.mode;
    var receipt := x.backend.command(c.log, m.skill.name, m.step.arguments);
    var c1 := c.(log := c.log + [Commanded(m.skill.name, m.step.arguments, receipt)]);
    var after := Look(x, c1);
    var c2 := Saw(c1, after);
    var timed := Timed(m.skill, receipt);
    var achieved := timed.accepted &&
      (x.flags.verifyOutcomes ==> OutcomeVerified(m.skill, m.step.arguments, m.before, after));
    var last := if achieved then "success" else "failure";
    c2.(last := Some(last),
        results := c2.results + [Result(m.skill.name, m.step.arguments, timed.accepted, achieved,
                                        m.before, Marked(after, last), timed.timedOut, m.attempt,
                                        |c.log|)])
  }

  function InnerStep(x: Setup, c: Control): Control
    requires c.mode.Inner?
  {
    var m := c.mode;
    var c1 := Attempted(x, c);
    if c1.results[|c1.results| - 1].achieved then c1.(mode := Outer, index := c.index + 1)
    else if !x.flags.allowRecovery then Halt(c1)
    else
      var mayReplan := x.config.replanner.Some? && c.replans < x.config.maxReplans;
      match Decide(x.config.maxRetries, m.attempt, mayReplan, m.skill.policy)
      case Retry => TryAgain(x, Decided(c1, LOCAL_RETRY), m)
      case Replace => TryReplan(x, Decided(c1, REPLAN), m)
      case SafeStop => Halt(Decided(c1, SAFE_STOP))
  }

  /** The state changed under a retry: leave the attempt loop and ground the step again. */
  function TryAgain(x: Setup, c: Control, m: Mode): Control
    requires m.Inner?
  {
    var before := Look(x, c);
    var c1 := Saw(c, before);
    if x.flags.runtimeGuard && !GuardAllows(m.skill, m.step, before, x.backend.clock(c1.log, ForGuard)) then
      Decided(c1, REGROUND).(mode := Outer)
    else c1.(mode := m.(before := before, attempt := m.attempt + 1))
  }

  function FailedPlan(c: Control, m: Mode): Plan
    requires m.Inner?
  {
    c.plan.(metadata := c.plan.metadata.(blocked := c.plan.metadata.blocked + {m.skill.name}))
  }

  function TryReplan(x: Setup, c: Control, m: Mode): Control
    requires m.Inner?
  {
    var s := Look(x, c);
    var c1 := Saw(c, s);
    match (match x.config.replanner case None => None case Some(f) => f(FailedPlan(c, m), s))
    case None => Halt(c1)
    case Some(p) => CheckReplan(x, c1, m, p)
  }

  /** Ground the new plan; if that fails, repair it once and ground again. */
  function CheckReplan(x: Setup, c: Control, m: Mode, p: Plan): Control
    requires m.Inner?
  {
    var s1 := Look(x, c);
    var c1 := Saw(c, s1);
    var plan := WithGoalState(x.Reg(), p, s1);
    var s2 := Look(x, c1);
    var c2 := Saw(c1, s2);
    var report := Ground(x.Reg(), x.Caps(), x.backend.clock(c2.log, ForGround), plan, s2);
    if report.valid then Adopt(c2, m, plan)
    else
      var s3 := Look(x, c2);
      var c3 := Saw(c2, s3);
      match Repair(x.Reg(), x.config.limits, x.backend.clock(c3.log, ForRepair), plan, s3, report.RequiresStop())
      case None => Halt(c3)
      case Some(r) =>
        var s4 := Look(x, c3);
        var c4 := Saw(c3, s4);
        if Ground(x.Reg(), x.Caps(), x.backend.clock(c4.log, ForReground), r, s4).valid then Adopt(c4, m, r)
        else Halt(c4)
  }

  function Adopt(c: Control, m: Mode, p: Plan): Control
    requires m.Inner?
  {
    c.(mode := Outer, plan := p, index := 0, replans := c.replans + 1, decision := REPLAN,
       adopted := c.adopted + [Adoption(m.skill.name, |c.log|)], epoch := |c.results|)
  }

  // ---- Runs ----------------------------------------------------------------------------------------------------

  /** One loop iteration. */
  function Advance(x: Setup, c: Control): Control {
    match c.mode
    case Outer => OuterStep(x, c)
    case Inner(_, _, _, _) => InnerStep(x, c)
    case Final(_) => c
  }

  function Iterate(x: Setup, c: Control, n: nat): Control {
    if n == 0 then c else Advance(x, Iterate(x, c, n - 1))
  }

  lemma {:induction false} IterateAdd(x: Setup, c: Control, m: nat, n: nat)
    ensures Iterate(x, Iterate(x, c, m), n) == Iterate(x, c, n + m)
  {
    hide Advance;
    if n > 0 { IterateAdd(x, c, m, n - 1); }
  }

  /** The control state after `n` loop heads of a run. */
  function After(x: Setup, plan: Plan, log: Log, last: Option<string>, n: nat): Control {
    Iterate(x, Start(x, plan, log, last), n)
  }
}
