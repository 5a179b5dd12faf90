/** The AGV observation barrier of the JAKA/Kargo transport
    (`integrations/jaka_kargo/ros2_transport.py`): receiver threads bump counters, one client
    navigates and queries. Every critical section is one action; any interleaving is a run. */
module AgvBarrier {
  import opened Values

  datatype Message = Message(payload: int)

  type Counters = (nat, nat)

  /** Where the client is. `Preparing` has found odometry, `Navigating` holds the counters it
      sampled before the service call, `Querying` the barrier it read when it took the lock. */
  datatype Client = Idle | Preparing | Navigating(before: Counters) | Querying(barrier: Option<Counters>)

  datatype Answer = Accepted | Rejected | TimedOut

  /** A query that returned, with the number of messages received when it did. */
  datatype Reading = Reading(odom: Message, motion: Message, received: Counters, navigated: Option<Counters>)

  /** `odoms` and `motions` are the messages received so far; the source keeps their number
      and the last one. `navigated` is history: what the last accepted navigation sampled. */
  datatype Monitor = Monitor(
    odoms: seq<Message>, motions: seq<Message>, barrier: Option<Counters>, client: Client,
    navigated: Option<Counters>, readings: seq<Reading>)
  {
    function Count(): Counters { (|odoms|, |motions|) }
  }

  datatype Action =
    | ReceiveOdom(m: Message) | ReceiveMotion(m: Message)
    | BeginNavigation | SampleCounters | EndNavigation(answer: Answer)
    | BeginQuery | WakeQuery | ExpireQuery

  predicate Ready(s: Monitor, barrier: Option<Counters>) {
    && s.odoms != [] && s.motions != []
    && (barrier.Some? ==> |s.odoms| >= barrier.value.0 && |s.motions| >= barrier.value.1)
  }

  function Act(s: Monitor, a: Action): Monitor {
    match a
    case ReceiveOdom(m) => s.(odoms := s.odoms + [m])
    case ReceiveMotion(m) => s.(motions := s.motions + [m])
    case BeginNavigation => if s.client.Idle? && s.odoms != [] then s.(client := Preparing) else s
    case SampleCounters => if s.client.Preparing? then s.(client := Navigating(s.Count())) else s
    case EndNavigation(answer) =>
      if !s.client.Navigating? then s
      else if answer != Accepted then s.(client := Idle)
      else
        var before := s.client.before;
        s.(client := Idle, navigated := Some(before), barrier := Some((before.0 + 1, before.1 + 1)))
    case BeginQuery => if s.client.Idle? then s.(client := Querying(s.barrier)) else s
    case WakeQuery =>
      if s.client.Querying? && Ready(s, s.client.barrier) then
        s.(client := Idle,
           barrier := if s.client.barrier.Some? then None else s.barrier,
           readings := s.readings +
             [Reading(s.odoms[|s.odoms| - 1], s.motions[|s.motions| - 1], s.Count(), s.navigated)])
      else s
    case ExpireQuery =>
      if s.client.Querying? && !Ready(s, s.client.barrier) then s.(client := Idle) else s
  }

  const INITIAL := Monitor([], [], None, Idle, None, [])

  function ActAll(s: Monitor, actions: seq<Action>): Monitor {
    if actions == [] then s
    else Act(ActAll(s, actions[..|actions| - 1]), actions[|actions| - 1])
  }

  /** Both samples of the reading came in after the navigation took its counters. */
  predicate AfterNavigation(s: Monitor, r: Reading) {
    && 0 < r.received.0 <= |s.odoms| && 0 < r.received.1 <= |s.motions|
    && r.odom == s.odoms[r.received.0 - 1] && r.motion == s.motions[r.received.1 - 1]
    && (r.navigated.Some? ==> r.received.0 > r.navigated.value.0 && r.received.1 > r.navigated.value.1)
  }

  /** The last accepted navigation is guarded by its barrier, or newer samples of both topics
      have been consumed since. */
  predicate Guarded(s: Monitor) {
    && (s.navigated.Some? ==>
          var n := s.navigated.value;
          s.barrier == Some((n.0 + 1, n.1 + 1)) || (|s.odoms| > n.0 && |s.motions| > n.1))
    && (s.client.Querying? ==> s.client.barrier == s.barrier)
    && (s.barrier.Some? ==>
          s.navigated.Some? && s.barrier.value == (s.navigated.value.0 + 1, s.navigated.value.1 + 1))
    && forall i :: 0 <= i < |s.readings| ==> AfterNavigation(s, s.readings[i])
  }

  lemma ActKeepsGuarded(s: Monitor, a: Action)
    requires Guarded(s)
    ensures Guarded(Act(s, a))
  {
    var t := Act(s, a);
    forall i | 0 <= i < |t.readings| ensures AfterNavigation(t, t.readings[i]) {
      if i < |s.readings| { assert AfterNavigation(s, s.readings[i]); }
    }
  }

  /** The observation barrier. In every interleaving of receivers and one client, every query
      that returns after an accepted navigation uses an odometry and a motion sample both
      received after that navigation sampled its counters. */
  lemma {:induction false} QueriesSeeFreshSamples(actions: seq<Action>)
    ensures Guarded(ActAll(INITIAL, actions))
  {
    if actions != [] {
      QueriesSeeFreshSamples(actions[..|actions| - 1]);
      ActKeepsGuarded(ActAll(INITIAL, actions[..|actions| - 1]), actions[|actions| - 1]);
    }
  }

  /** A navigation starts only from a position: in every run one is under way only if odometry has
      been heard, it holds no more than what had been received, and an idle client gets to send
      one exactly then. */
  lemma {:induction false} NavigationNeedsOdometry(actions: seq<Action>)
    ensures var s := ActAll(INITIAL, actions);
            && (s.client.Preparing? || s.client.Navigating? ==> |s.odoms| >= 1)
            && (s.client.Navigating? ==>
                  s.client.before.0 <= |s.odoms| && s.client.before.1 <= |s.motions| && s.client.before.0 >= 1)
            && (s.client.Idle? ==>
                  (Act(Act(s, BeginNavigation), SampleCounters).client == Navigating((|s.odoms|, |s.motions|)) <==>
                     |s.odoms| >= 1))
  {
    if actions != [] { NavigationNeedsOdometry(actions[..|actions| - 1]); }
  }

  /** When a query is answered. In every run a waiting query returns exactly when both topics have
      been heard and, while a navigation is pending, at least one message of each has come in
      since that navigation sampled its counters; it returns the last message of each and
      nothing is pending any more. Otherwise it goes on waiting, or raises at its deadline. */
  lemma QueryAnsweredExactly(actions: seq<Action>)
    requires ActAll(INITIAL, actions).client.Querying?
    ensures var s := ActAll(INITIAL, actions);
            var (woken, late) := (Act(s, WakeQuery), Act(s, ExpireQuery));
            var answered := |s.odoms| >= 1 && |s.motions| >= 1 &&
              (s.barrier.Some? ==>
                 s.navigated.Some? && Newer(s, s.navigated.value));
            && (if answered then
                  && woken.client == Idle && woken.barrier == None && |woken.readings| == |s.readings| + 1
                  && var r := woken.readings[|s.readings|];
                     r.odom == s.odoms[|s.odoms| - 1] && r.motion == s.motions[|s.motions| - 1]
                else woken == s)
            && late == if answered then s else s.(client := Idle)
  {
    QueriesSeeFreshSamples(actions);
  }

  /** One message of each is enough, in either order, and one alone is not: a query that follows
      an accepted navigation. */
  lemma OneOfEachSuffices(s: Monitor, odom: Message, motion: Message)
    requires Guarded(s) && s.client.Navigating? && s.client.before == s.Count()
    ensures var waiting := Act(Act(s, EndNavigation(Accepted)), BeginQuery);
            var (first, second) := (Act(waiting, ReceiveOdom(odom)), Act(waiting, ReceiveMotion(motion)));
            && Act(waiting, WakeQuery) == waiting && Act(first, WakeQuery) == first && Act(second, WakeQuery) == second
            && forall both :: both == Act(first, ReceiveMotion(motion)) || both == Act(second, ReceiveOdom(odom)) ==>
                 var r := Act(both, WakeQuery).readings;
                 |r| == |s.readings| + 1 && r[|s.readings|].odom == odom && r[|s.readings|].motion == motion
  {
  }

  /** Everything but a query that returns and a navigation that is accepted. */
  predicate Background(a: Action) { a != WakeQuery && a != EndNavigation(Accepted) }

  /** A timed-out query leaves the barrier armed, and it stays armed through any number of
      receptions, timed-out queries and navigations that are rejected or time out: only a
      query that returns, or the next accepted navigation, changes it. */
  lemma {:induction false} BarrierStaysArmed(s: Monitor, actions: seq<Action>)
    requires forall a :: a in actions ==> Background(a)
    ensures ActAll(s, actions).barrier == s.barrier
  {
    if actions != [] {
      var n := |actions| - 1;
      BarrierStaysArmed(s, actions[..n]);
      assert Background(actions[n]);
    }
  }

  /** More of both topics has arrived than the counters say. */
  predicate Newer(s: Monitor, before: Counters) { |s.odoms| > before.0 && |s.motions| > before.1 }

  /** The navigation is answered, and the client asks for the position at once. */
  function AnsweredThenAsked(s: Monitor, answer: Answer): Monitor {
    Act(Act(Act(s, EndNavigation(answer)), BeginQuery), WakeQuery)
  }

  /** The barrier guards accepted navigations only. Once both topics have been heard, the
      first query after a navigation returns a sample from before it exactly when the answer
      was not acceptance, nothing newer has come in, and no barrier left from an earlier
      navigation holds it back. In particular, with no such barrier and no reception since,
      the query waits if and only if the navigation was accepted: a rejected call is as
      unguarded as one that timed out and may still be moving the vehicle. */
  lemma OnlyAcceptanceGuards(s: Monitor, before: Counters, answer: Answer)
    requires s.client == Navigating(before) && s.odoms != [] && s.motions != []
    requires before.0 <= |s.odoms| && before.1 <= |s.motions|
    ensures var t := AnsweredThenAsked(s, answer);
            && (t.readings != s.readings && !Newer(s, before) <==>
                  answer != Accepted && !Newer(s, before) && Ready(s, s.barrier))
            && (s.barrier.None? && before == s.Count() ==>
                  (t.readings == s.readings <==> answer == Accepted))
  {
    var t := AnsweredThenAsked(s, answer);
    assert t.readings != s.readings ==> |t.readings| == |s.readings| + 1;
  }

  /** Such a monitor is reached: two samples, a navigation, any answer but acceptance. */
  lemma UnguardedNavigationReturnsOldSample(odom: Message, motion: Message, answer: Answer)
    requires answer != Accepted
    ensures var s := ActAll(INITIAL, [ReceiveOdom(odom), ReceiveMotion(motion), BeginNavigation, SampleCounters]);
            AnsweredThenAsked(s, answer).readings == [Reading(odom, motion, (1, 1), None)]
  {
    var a := [ReceiveOdom(odom), ReceiveMotion(motion), BeginNavigation, SampleCounters];
    assert a[..3][..2] == a[..2] && a[..2][..1] == a[..1] && a[..1][..0] == [];
    assert ActAll(INITIAL, a[..1]) == Act(INITIAL, a[0]);
    assert ActAll(INITIAL, a[..2]) == Act(Act(INITIAL, a[0]), a[1]);
    assert ActAll(INITIAL, a[..3]) == Act(Act(Act(INITIAL, a[0]), a[1]), a[2]);
  }

  /** The stateful object; every method is one critical section. */
  class AgvTransport {
    var latestOdom: Option<Message>
    var odomSequence: nat
    var latestMotion: Option<Message>
    var motionSequence: nat
    var pendingBarrier: Option<Counters>
    ghost var monitor: Monitor

    /** The kept counters and last messages are those of the histories. */
    ghost predicate Valid()
      reads this
    {
      && odomSequence == |monitor.odoms| && motionSequence == |monitor.motions|
      && latestOdom == (if monitor.odoms == [] then None else Some(monitor.odoms[|monitor.odoms| - 1]))
      && latestMotion == (if monitor.motions == [] then None else Some(monitor.motions[|monitor.motions| - 1]))
      && pendingBarrier == monitor.barrier
    }

    constructor ()
      ensures Valid() && monitor == INITIAL
    {
      latestOdom, odomSequence, latestMotion, motionSequence := None, 0, None, 0;
      pendingBarrier := None;
      monitor := INITIAL;
    }

    method OnOdom(m: Message)
      requires Valid()
      modifies this
      ensures Valid() && monitor == Act(old(monitor), ReceiveOdom(m))
    {
      latestOdom, odomSequence := Some(m), odomSequence + 1;
      monitor := Act(monitor, ReceiveOdom(m));
    }

    method OnMotion(m: Message)
      requires Valid()
      modifies this
      ensures Valid() && monitor == Act(old(monitor), ReceiveMotion(m))
    {
      latestMotion, motionSequence := Some(m), motionSequence + 1;
      monitor := Act(monitor, ReceiveMotion(m));
    }

    /** Navigation needs odometry to start from. */
    method NavigationStarts() returns (ok: bool)
      requires Valid() && monitor.client.Idle?
      modifies this
      ensures Valid() && monitor == Act(old(monitor), BeginNavigation)
      ensures ok <==> monitor.client.Preparing?
    {
      ok := latestOdom.Some?;
      monitor := Act(monitor, BeginNavigation);
    }

    /** The counters to compare with later, under the lock again. */
    method CountersBefore() returns (before: Counters)
      requires Valid() && monitor.client.Preparing?
      modifies this
      ensures Valid() && monitor == Act(old(monitor), SampleCounters)
      ensures monitor.client == Navigating(before) && before == monitor.Count()
    {
      before := (odomSequence, motionSequence);
      monitor := Act(monitor, SampleCounters);
    }

    method NavigationAnswered(before: Counters, answer: Answer)
      requires Valid() && monitor.client == Navigating(before)
      modifies this
      ensures Valid() && monitor == Act(old(monitor), EndNavigation(answer))
    {
      if answer == Accepted {
        pendingBarrier := Some((before.0 + 1, before.1 + 1));
      }
      monitor := Act(monitor, EndNavigation(answer));
    }

    method StartQuery() returns (barrier: Option<Counters>)
      requires Valid() && monitor.client.Idle?
      modifies this
      ensures Valid() && monitor == Act(old(monitor), BeginQuery)
      ensures monitor.client == Querying(barrier)
    {
      barrier := pendingBarrier;
      monitor := Act(monitor, BeginQuery);
    }

    /** One pass through the wait loop: return the samples, or go on waiting. */
    method CheckQuery(barrier: Option<Counters>) returns (samples: Option<(Message, Message)>)
      requires Valid() && monitor.client == Querying(barrier)
      modifies this
      ensures Valid() && monitor == Act(old(monitor), WakeQuery)
      ensures samples.Some? <==> |monitor.readings| == |old(monitor).readings| + 1
      ensures samples.Some? ==>
                var r := monitor.readings[|old(monitor).readings|];
                samples.value == (r.odom, r.motion)
    {
      samples := None;
      if !(latestOdom.None? || latestMotion.None? ||
           (barrier.Some? && (odomSequence < barrier.value.0 || motionSequence < barrier.value.1))) {
        samples := Some((latestOdom.value, latestMotion.value));
        if barrier.Some? {
          pendingBarrier := None;
        }
      }
      monitor := Act(monitor, WakeQuery);
    }

    /** The deadline passes in a wait that is not met: the query raises, the barrier stays. */
    method QueryExpires(barrier: Option<Counters>)
      requires Valid() && monitor.client == Querying(barrier) && !Ready(monitor, barrier)
      modifies this
      ensures Valid() && monitor == Act(old(monitor), ExpireQuery)
      ensures monitor.client.Idle? && pendingBarrier == old(pendingBarrier) && monitor.readings == old(monitor.readings)
    {
      monitor := Act(monitor, ExpireQuery);
    }
  }
}
