/** The observation cache of the ROS2 backend (`ros2/ros2_backend.py`): a receiver thread fills
    it, one client commands, observes and refreshes. Every critical section is one action; any
    interleaving is a run. */
module Ros2Cache {
  import opened Values

  /** A sample published with a sequence number. */
  datatype Sample = Sample(sequence: int, payload: int)

  /** `_sequence`, `_latest_state`, and the history of received samples. */
  datatype Cache = Cache(sequence: int, latest: Option<Sample>, history: seq<Sample>)

  const EMPTY := Cache(0, None, [])

  function Receive(c: Cache, s: Sample): Cache {
    var d := c.(history := c.history + [s]);
    if s.sequence >= c.sequence then d.(sequence := s.sequence, latest := Some(s)) else d
  }

  function ReceiveAll(samples: seq<Sample>): (c: Cache)
    ensures c.history == samples
  {
    if samples == [] then EMPTY
    else Receive(ReceiveAll(samples[..|samples| - 1]), samples[|samples| - 1])
  }

  /** The last received among the samples of maximal sequence, none of them negative. */
  predicate LastMaximal(samples: seq<Sample>, i: nat) {
    && i < |samples| && samples[i].sequence >= 0
    && (forall j :: 0 <= j < |samples| ==> samples[j].sequence <= samples[i].sequence)
    && (forall j :: i < j < |samples| ==> samples[j].sequence < samples[i].sequence)
  }

  /** The cache holds exactly the last received sample of maximal sequence, whatever the
      order of arrival; it is empty exactly when every sequence number was negative. */
  lemma {:induction false} CacheHoldsLastMaximal(samples: seq<Sample>)
    returns (i: nat)
    ensures var c := ReceiveAll(samples);
            && (c.latest.Some? ==> LastMaximal(samples, i) && c.latest == Some(samples[i]) &&
                                   c.sequence == samples[i].sequence)
            && (c.latest.None? <==> forall j :: 0 <= j < |samples| ==> samples[j].sequence < 0)
            && (c.latest.None? ==> c.sequence == 0)
  {
    i := 0;
    if samples != [] {
      var n := |samples| - 1;
      var prior := CacheHoldsLastMaximal(samples[..n]);
      var before := ReceiveAll(samples[..n]);
      i := if samples[n].sequence >= before.sequence then n else prior;
    }
  }

  /** The sequence the cache had reached when `mark` samples were in. */
  function SequenceAt(samples: seq<Sample>, mark: nat): int
    requires mark <= |samples|
  {
    ReceiveAll(samples[..mark]).sequence
  }

  /** A sample after `mark` exceeds what was there. */
  predicate Exceeded(samples: seq<Sample>, mark: nat)
    requires mark <= |samples|
  {
    exists j :: mark <= j < |samples| && samples[j].sequence > SequenceAt(samples, mark)
  }

  /** Comparing sequence numbers decides exactly whether something newer has arrived, and then
      what the cache holds is one of the newer samples, however they were reordered. */
  lemma ExceededIsSeen(samples: seq<Sample>, mark: nat)
    requires mark <= |samples|
    ensures var c := ReceiveAll(samples);
            && (c.latest.Some? && c.sequence > SequenceAt(samples, mark) <==> Exceeded(samples, mark))
            && (Exceeded(samples, mark) ==> c.latest.value in samples[mark..])
  {
    hide ReceiveAll;
    var c, reached := ReceiveAll(samples), SequenceAt(samples, mark);
    var i := CacheHoldsLastMaximal(samples);
    OldSamplesAreSmaller(samples, mark);
    if c.latest.Some? && c.sequence > reached {
      assert mark <= i;
      assert samples[mark..][i - mark] == samples[i];
    }
  }

  lemma OldSamplesAreSmaller(samples: seq<Sample>, mark: nat)
    requires mark <= |samples|
    ensures forall i :: 0 <= i < mark ==> samples[i].sequence <= SequenceAt(samples, mark)
    ensures SequenceAt(samples, mark) >= 0
  {
    hide ReceiveAll;
    var k := CacheHoldsLastMaximal(samples[..mark]);
    forall i | 0 <= i < mark ensures samples[i].sequence <= SequenceAt(samples, mark) {
      assert samples[..mark][i] == samples[i];
    }
  }

  // ---- The client -----------------------------------------------------------------------------------

  /** Where the client is. A command remembers the sequence it started from; `mark` is history:
      how many samples had been received then. `Waiting` follows a completed command, `First`
      waits for any sample at all, `Refreshing` for one after an acquisition. A wait that has
      expired has let the lock go: `GaveUp`, when `at` samples were in, is about to read the
      cache again, `FellBack` to observe after all. */
  datatype Client =
    | Idle
    | Commanding(before: int, mark: nat)
    | Waiting(after: int)
    | First
    | Refreshing(after: int, mark: nat)
    | GaveUp(at: nat)
    | FellBack

  /** What an observation returned, whether its wait had expired, how many samples were in when
      the wait ended and when the cache was read, and what it had to be newer than. */
  datatype Reading = Reading(sample: Sample, late: bool, ended: nat, received: nat, since: Option<nat>)

  /** `mark` is history: how many samples were in when the command that set `required` began.
      `failures` counts the observations that raised. */
  datatype Backend = Backend(cache: Cache, required: Option<int>, mark: nat, client: Client,
                             readings: seq<Reading>, failures: nat)
  {
    function Since(): Option<nat> { if required.Some? then Some(mark) else None }

    function Returned(sample: Sample, since: Option<nat>): Backend {
      var n := |cache.history|;
      this.(client := Idle, readings := readings + [Reading(sample, false, n, n, since)])
    }

    function ReturnedLate(sample: Sample, at: nat): Backend {
      this.(client := Idle, readings := readings + [Reading(sample, true, at, |cache.history|, Since())])
    }
  }

  datatype Action =
    | ReceiveSample(s: Sample)
    | BeginCommand | EndCommand(completed: bool)
    | BeginObserve | BeginRefresh | Wake | Expire | Reread

  /** `observe` up to its wait: at once from the cache when nothing is required. */
  function StartObserve(b: Backend): Backend {
    if b.required.Some? then b.(client := Waiting(b.required.value))
    else if b.cache.latest.Some? then b.Returned(b.cache.latest.value, None)
    else b.(client := First)
  }

  predicate Arrived(b: Backend, after: int) { b.cache.latest.Some? && b.cache.sequence > after }

  function Act(b: Backend, a: Action): Backend {
    match a
    case ReceiveSample(s) => b.(cache := Receive(b.cache, s))
    case BeginCommand =>
      if b.client.Idle? then b.(client := Commanding(b.cache.sequence, |b.cache.history|)) else b
    case EndCommand(completed) =>
      if !b.client.Commanding? then b
      else if completed then b.(client := Idle, required := Some(b.client.before), mark := b.client.mark)
      else b.(client := Idle)
    case BeginObserve => if b.client.Idle? then StartObserve(b) else b
    case BeginRefresh =>
      if b.client.Idle? then b.(client := Refreshing(b.cache.sequence, |b.cache.history|)) else b
    case Wake =>
      (match b.client
       case Waiting(after) =>
         if Arrived(b, after) then b.Returned(b.cache.latest.value, b.Since()).(required := None) else b
       case First => if Arrived(b, 0) then b.Returned(b.cache.latest.value, None) else b
       case Refreshing(after, mark) =>
         if Arrived(b, after) then b.Returned(b.cache.latest.value, Some(mark)) else b
       case _ => b)
    case Expire =>
      (match b.client
       case Waiting(after) => if Arrived(b, after) then b else b.(client := GaveUp(|b.cache.history|))
       case First => if Arrived(b, 0) then b else b.(client := Idle, failures := b.failures + 1)
       case Refreshing(after, mark) => if Arrived(b, after) then b else b.(client := FellBack)
       case _ => b)
    case Reread =>
      (match b.client
       case GaveUp(at) =>
         if b.cache.latest.None? then b.(client := Idle, required := None, failures := b.failures + 1)
         else b.ReturnedLate(b.cache.latest.value, at).(required := None)
       case FellBack => StartObserve(b)
       case _ => b)
  }

  const INITIAL := Backend(EMPTY, None, 0, Idle, [], 0)

  function ActAll(b: Backend, actions: seq<Action>): Backend {
    if actions == [] then b
    else Act(ActAll(b, actions[..|actions| - 1]), actions[|actions| - 1])
  }

  /** A reading is what the cache held when it was read. If it had to be newer than `since`, it
      is late exactly when nothing newer was in when the wait ended; and whenever something
      newer is in when the cache is read - always, unless it is late - it is a sample received
      since. */
  predicate Honest(history: seq<Sample>, r: Reading) {
    && r.ended <= r.received <= |history|
    && ReceiveAll(history[..r.received]).latest == Some(r.sample)
    && (r.since.Some? ==>
          && r.since.value <= r.ended
          && (r.late <==> !Exceeded(history[..r.ended], r.since.value))
          && (!r.late ==> Exceeded(history[..r.received], r.since.value))
          && (Exceeded(history[..r.received], r.since.value) ==> r.sample in history[r.since.value..r.received]))
    && (r.since.None? ==> !r.late)
  }

  /** What is remembered of the past is what the history says. */
  predicate Consistent(b: Backend) {
    var h := b.cache.history;
    && b.cache == ReceiveAll(h)
    && b.mark <= |h|
    && (b.required.Some? ==> b.required.value == SequenceAt(h, b.mark))
    && (match b.client
        case Idle => true
        case Commanding(before, mark) => mark <= |h| && before == SequenceAt(h, mark)
        case Waiting(after) => b.required == Some(after)
        case First => true
        case Refreshing(after, mark) => mark <= |h| && after == SequenceAt(h, mark)
        case GaveUp(at) => b.required.Some? && b.mark <= at <= |h| && !Exceeded(h[..at], b.mark)
        case FellBack => true)
    && forall i :: 0 <= i < |b.readings| ==> Honest(h, b.readings[i])
  }

  lemma HonestLater(h: seq<Sample>, s: Sample, r: Reading)
    requires Honest(h, r)
    ensures Honest(h + [s], r)
  {
    assert (h + [s])[..r.received] == h[..r.received] && (h + [s])[..r.ended] == h[..r.ended];
    if r.since.Some? { assert (h + [s])[r.since.value..r.received] == h[r.since.value..r.received]; }
  }

  lemma SequenceStays(h: seq<Sample>, s: Sample, mark: nat)
    requires mark <= |h|
    ensures SequenceAt(h + [s], mark) == SequenceAt(h, mark)
  {
    assert (h + [s])[..mark] == h[..mark];
  }

  lemma ReceptionKeepsConsistent(b: Backend, s: Sample)
    requires Consistent(b)
    ensures Consistent(Act(b, ReceiveSample(s)))
  {
    hide SequenceAt, Honest;
    var h := b.cache.history;
    assert (h + [s])[..|h|] == h;
    assert ReceiveAll(h + [s]) == Receive(ReceiveAll(h), s);
    SequenceStays(h, s, b.mark);
    if b.client.Commanding? || b.client.Refreshing? { SequenceStays(h, s, b.client.mark); }
    if b.client.GaveUp? { assert (h + [s])[..b.client.at] == h[..b.client.at]; }
    forall i | 0 <= i < |b.readings| ensures Honest(h + [s], b.readings[i]) { HonestLater(h, s, b.readings[i]); }
  }

  /** What the cache gives is honest, whether or not it had to be newer. */
  lemma CachedIsHonest(b: Backend, since: Option<nat>)
    requires b.cache == ReceiveAll(b.cache.history) && b.cache.latest.Some?
    requires since.Some? ==>
               since.value <= |b.cache.history| && b.cache.sequence > SequenceAt(b.cache.history, since.value)
    ensures var n := |b.cache.history|;
            Honest(b.cache.history, Reading(b.cache.latest.value, false, n, n, since))
  {
    hide ReceiveAll;
    var h := b.cache.history;
    assert h[..|h|] == h;
    if since.Some? {
      ExceededIsSeen(h, since.value);
      assert h[since.value..|h|] == h[since.value..];
    }
  }

  /** ... also after the wait for it has expired. */
  lemma LateIsHonest(b: Backend)
    requires Consistent(b) && b.client.GaveUp? && b.cache.latest.Some?
    ensures Honest(b.cache.history,
                   Reading(b.cache.latest.value, true, b.client.at, |b.cache.history|, Some(b.mark)))
  {
    hide ReceiveAll;
    var h := b.cache.history;
    assert h[..|h|] == h;
    ExceededIsSeen(h, b.mark);
    assert h[b.mark..|h|] == h[b.mark..];
  }

  lemma SequenceNow(h: seq<Sample>)
    ensures SequenceAt(h, |h|) == ReceiveAll(h).sequence
  {
    assert h[..|h|] == h;
  }

  lemma ObserveKeepsConsistent(b: Backend)
    requires Consistent(b) && (b.client.Idle? || b.client.FellBack?)
    ensures Consistent(StartObserve(b))
  {
    hide Honest, SequenceAt;
    if b.required.None? && b.cache.latest.Some? { CachedIsHonest(b, None); }
  }

  lemma WakeKeepsConsistent(b: Backend)
    requires Consistent(b)
    ensures Consistent(Act(b, Wake))
  {
    hide Honest, SequenceAt, ReceiveAll;
    match b.client {
      case Waiting(after) => if Arrived(b, after) { CachedIsHonest(b, Some(b.mark)); }
      case First => if Arrived(b, 0) { CachedIsHonest(b, None); }
      case Refreshing(after, mark) => if Arrived(b, after) { CachedIsHonest(b, Some(mark)); }
      case _ =>
    }
  }

  lemma ExpireKeepsConsistent(b: Backend)
    requires Consistent(b)
    ensures Consistent(Act(b, Expire))
  {
    hide Honest, ReceiveAll;
    var h := b.cache.history;
    assert h[..|h|] == h;
    if b.client.Waiting? { ExceededIsSeen(h, b.mark); }
  }

  lemma RereadKeepsConsistent(b: Backend)
    requires Consistent(b)
    ensures Consistent(Act(b, Reread))
  {
    hide Honest, SequenceAt, ReceiveAll, StartObserve;
    match b.client {
      case GaveUp(at) => if b.cache.latest.Some? { LateIsHonest(b); }
      case FellBack => ObserveKeepsConsistent(b);
      case _ =>
    }
  }

  lemma ActKeepsConsistent(b: Backend, a: Action)
    requires Consistent(b)
    ensures Consistent(Act(b, a))
  {
    match a {
      case ReceiveSample(s) => ReceptionKeepsConsistent(b, s);
      case BeginObserve => if b.client.Idle? { ObserveKeepsConsistent(b); }
      case Wake => WakeKeepsConsistent(b);
      case Expire => ExpireKeepsConsistent(b);
      case Reread => RereadKeepsConsistent(b);
      case _ => SequenceNow(b.cache.history);
    }
  }

  /** Observation after a command, in every interleaving of the receiver and one client. The
      first observation after a completed command is late exactly when nothing newer had
      arrived by the end of its wait. It returns what the cache holds when it is read, which
      is a sample received after the command began whenever something newer is there by
      then: always, unless it is late, and even then if it came in between giving up and
      reading again. The same holds for a refresh that does not fall back. */
  lemma {:induction false} PostCommandObservationIsNew(actions: seq<Action>)
    ensures Consistent(ActAll(INITIAL, actions))
  {
    hide Act, Consistent;
    if actions == [] {
      assert Consistent(INITIAL) by { NothingReceived(); }
    } else {
      PostCommandObservationIsNew(actions[..|actions| - 1]);
      ActKeepsConsistent(ActAll(INITIAL, actions[..|actions| - 1]), actions[|actions| - 1]);
    }
  }

  lemma NothingReceived()
    ensures Consistent(INITIAL)
  {
  }

  /** A command that reached its result makes the next observation wait for something newer than
      what was in when it began; one that did not leaves the client as if it had not been sent,
      whatever an earlier command requires. */
  lemma OnlyCompletionRequires(b: Backend)
    requires Consistent(b) && b.client.Commanding?
    ensures var after := SequenceAt(b.cache.history, b.client.mark);
            && Act(Act(b, EndCommand(true)), BeginObserve) ==
               b.(client := Waiting(after), required := Some(after), mark := b.client.mark)
            && Act(b, EndCommand(false)) == b.(client := Idle)
  {
  }

  /** The wait after a command is given up exactly when nothing newer has arrived. */
  lemma GivesUpExactly(b: Backend)
    requires Consistent(b) && b.client.Waiting?
    ensures var h := b.cache.history;
            Act(b, Expire) == if Exceeded(h, b.mark) then b else b.(client := GaveUp(|h|))
  {
    ExceededIsSeen(b.cache.history, b.mark);
  }

  /** Every wait ends exactly when something newer is in - newer than what was there when the
      command or the refresh began - and it returns what is cached then; the wait after a
      command drops its requirement, a refresh keeps whatever is required. */
  lemma WakesExactly(b: Backend)
    requires Consistent(b) && (b.client.Waiting? || b.client.Refreshing?)
    ensures var h := b.cache.history;
            var mark := if b.client.Waiting? then b.mark else b.client.mark;
            var woken := Act(b, Wake);
            if Exceeded(h, mark) then
              && b.cache.latest.Some? && woken.client.Idle?
              && woken.readings == b.readings + [Reading(b.cache.latest.value, false, |h|, |h|, Some(mark))]
              && woken.required == (if b.client.Waiting? then None else b.required)
            else woken == b
  {
    hide ReceiveAll, Honest, Exceeded, SequenceAt;
    var h := b.cache.history;
    ExceededIsSeen(h, if b.client.Waiting? then b.mark else b.client.mark);
    ReachedIsNotNegative(h, if b.client.Waiting? then b.mark else b.client.mark);
    NothingCachedIsLow(h);
  }

  lemma ReachedIsNotNegative(h: seq<Sample>, mark: nat)
    requires mark <= |h|
    ensures SequenceAt(h, mark) >= 0
  {
    OldSamplesAreSmaller(h, mark);
  }

  lemma NothingCachedIsLow(h: seq<Sample>)
    ensures ReceiveAll(h).latest.None? ==> ReceiveAll(h).sequence <= 0
  {
    var i := CacheHoldsLastMaximal(h);
  }

  /** A refresh whose wait has expired observes instead: at once if nothing is required and
      something is cached, and otherwise by waiting like any observation. */
  lemma FallsBackExactly(b: Backend)
    requires b.client.FellBack?
    ensures var d := Act(b, Reread);
            if b.required.Some? then d == b.(client := Waiting(b.required.value))
            else match b.cache.latest
              case Some(cached) =>
                && d.client.Idle? && d.failures == b.failures
                && d.readings == b.readings + [Reading(cached, false, |b.cache.history|, |b.cache.history|, None)]
              case None => d == b.(client := First)
    ensures forall client: Client :: client.Refreshing? && !Arrived(b, client.after) ==>
              Act(b.(client := client), Expire).client == FellBack
  {
  }

  /** Having given up, the client reads the cache again, whatever has been received meanwhile.
      An empty cache raises. Otherwise the reading is marked late, the requirement is
      forgotten, and the next observation returns the same sample at once and unmarked; and
      that sample is not newer than the command unless one that is came in meanwhile. The
      JAKA/Kargo barrier stays armed instead. */
  lemma LateObservationForgets(b: Backend)
    requires Consistent(b) && b.client.GaveUp?
    ensures var h := b.cache.history;
            var first := Act(b, Reread);
            var second := Act(first, BeginObserve);
            && first.required == None
            && match b.cache.latest
               case None => first.failures == b.failures + 1 && first.readings == b.readings
               case Some(cached) =>
                 && first.readings == b.readings + [Reading(cached, true, b.client.at, |h|, Some(b.mark))]
                 && second.readings == first.readings + [Reading(cached, false, |h|, |h|, None)]
                 && (cached.sequence > SequenceAt(h, b.mark) <==> Exceeded(h, b.mark))
  {
    var i := CacheHoldsLastMaximal(b.cache.history);
    ExceededIsSeen(b.cache.history, b.mark);
  }

  lemma OneAction(b: Backend, actions: seq<Action>, a: Action)
    ensures ActAll(b, actions + [a]) == Act(ActAll(b, actions), a)
    ensures actions == [] ==> ActAll(b, actions) == b
  {
    hide Act;
    assert (actions + [a])[..|actions|] == actions;
  }

  lemma ThreeActions(b: Backend, x: Action, y: Action, z: Action)
    ensures ActAll(b, [x]) == Act(b, x)
    ensures ActAll(b, [x, y]) == Act(Act(b, x), y)
    ensures ActAll(b, [x, y, z]) == Act(Act(Act(b, x), y), z)
  {
    hide Act, ActAll;
    OneAction(b, [], x);
    OneAction(b, [x], y);
    OneAction(b, [x, y], z);
    assert [] + [x] == [x] && [x] + [y] == [x, y] && [x, y] + [z] == [x, y, z];
  }

  /** A client that gives up on an old sample is reached, and a sample that comes in before it
      reads again is returned, new but marked late. */
  lemma OldAndLateReadings(n: nat, p: int, q: int)
    ensures var command := [ReceiveSample(Sample(n, p)), BeginCommand, EndCommand(true)];
            var gaveUp := Act(Act(ActAll(INITIAL, command), BeginObserve), Expire);
            && gaveUp.client == GaveUp(1)
            && Act(gaveUp, Reread).readings == [Reading(Sample(n, p), true, 1, 1, Some(1))]
            && Act(Act(gaveUp, ReceiveSample(Sample(n + 1, q))), Reread).readings ==
               [Reading(Sample(n + 1, q), true, 1, 2, Some(1))]
  {
    ThreeActions(INITIAL, ReceiveSample(Sample(n, p)), BeginCommand, EndCommand(true));
  }

  /** The very first wait is for a sequence above zero: while it lasts, a sample numbered zero
      is cached but does not end it, and when it expires the observation raises all the same. */
  lemma FirstWaitSkipsZero(b: Backend)
    requires Consistent(b) && b.client.First?
    ensures var h := b.cache.history;
            var positive := exists j :: 0 <= j < |h| && h[j].sequence > 0;
            && (Act(b, Wake).client.Idle? <==> positive)
            && (Act(b, Expire).failures == b.failures + 1 <==> !positive)
  {
    var h := b.cache.history;
    assert h[..0] == [];
    ExceededIsSeen(h, 0);
  }

  /** Such a client is reached: it waits, and a sample numbered zero comes in. */
  lemma ZeroIsSkipped(p: int)
    ensures var b := ActAll(INITIAL, [BeginObserve, ReceiveSample(Sample(0, p))]);
            && b.client.First? && b.cache.latest == Some(Sample(0, p))
            && Act(b, Wake) == b && Act(b, Expire).failures == 1
  {
    ThreeActions(INITIAL, BeginObserve, ReceiveSample(Sample(0, p)), Wake);
  }

  /** Who waits: `observe` after a command, `observe` before any sample, or `acquire`. */
  datatype Purpose = AfterCommand | FirstSample | AfterRefresh

  predicate WaitsFor(c: Client, purpose: Purpose, after: int) {
    match c
    case Waiting(a) => purpose == AfterCommand && a == after
    case First => purpose == FirstSample && after == 0
    case Refreshing(a, _) => purpose == AfterRefresh && a == after
    case _ => false
  }

  /** The stateful cache; every method is one critical section. The fields are those of the
      source, `monitor` is history. */
  class ObservationCache {
    var sequence: int
    var latest: Option<Sample>
    var history: seq<Sample>
    var required: Option<int>
    ghost var monitor: Backend

    /** The fields hold what the monitor says. */
    ghost predicate Valid()
      reads this
    {
      monitor.cache == Cache(sequence, latest, history) && monitor.required == required && Consistent(monitor)
    }

    constructor ()
      ensures Valid() && monitor == INITIAL
    {
      sequence, latest, history, required := 0, None, [], None;
      monitor := INITIAL;
      new;
      NothingReceived();
    }

    method ReceiveState(s: Sample)
      requires Valid()
      modifies this
      ensures Valid() && monitor == Act(old(monitor), ReceiveSample(s))
    {
      ActKeepsConsistent(monitor, ReceiveSample(s));
      monitor := Act(monitor, ReceiveSample(s));
      if s.sequence >= sequence {
        sequence, latest := s.sequence, Some(s);
      }
      history := history + [s];
    }

    /** A command notes the sequence it starts from. */
    method CommandBegins() returns (before: int)
      requires Valid() && monitor.client.Idle?
      modifies this
      ensures Valid() && monitor == Act(old(monitor), BeginCommand)
      ensures monitor.client == Commanding(before, |monitor.cache.history|)
    {
      before := sequence;
      ActKeepsConsistent(monitor, BeginCommand);
      monitor := Act(monitor, BeginCommand);
    }

    /** A terminal action result makes that sequence the requirement; a rejected goal or a
        transport error does not. */
    method CommandEnds(before: int, completed: bool)
      requires Valid() && monitor.client.Commanding? && monitor.client.before == before
      modifies this
      ensures Valid() && monitor == Act(old(monitor), EndCommand(completed))
    {
      ActKeepsConsistent(monitor, EndCommand(completed));
      monitor := Act(monitor, EndCommand(completed));
      if completed {
        required := Some(before);
      }
    }

    /** `observe` until it returns or has to wait. */
    method ObserveStarts() returns (sample: Option<Sample>)
      requires Valid() && monitor.client.Idle?
      modifies this
      ensures Valid() && monitor == Act(old(monitor), BeginObserve)
      ensures sample == if monitor.client.Idle? then latest else None
    {
      sample := if required.Some? then None else latest;
      ActKeepsConsistent(monitor, BeginObserve);
      monitor := Act(monitor, BeginObserve);
    }

    /** One pass of the wait loop for a sample after `after`. */
    method CheckWait(purpose: Purpose, after: int) returns (sample: Option<Sample>)
      requires Valid() && WaitsFor(monitor.client, purpose, after)
      modifies this
      ensures Valid() && monitor == Act(old(monitor), Wake)
      ensures sample == if monitor.client.Idle? then latest else None
    {
      sample := None;
      ActKeepsConsistent(monitor, Wake);
      if !(latest.None? || sequence <= after) {
        sample := latest;
        if purpose == AfterCommand {
          required := None;
        }
      }
      monitor := Act(monitor, Wake);
    }

    /** `acquire` asks for fresh evidence and waits for more than is there. */
    method RefreshStarts() returns (before: int)
      requires Valid() && monitor.client.Idle?
      modifies this
      ensures Valid() && monitor == Act(old(monitor), BeginRefresh)
      ensures WaitsFor(monitor.client, AfterRefresh, before)
    {
      before := sequence;
      ActKeepsConsistent(monitor, BeginRefresh);
      monitor := Act(monitor, BeginRefresh);
    }

    /** The deadline passes in a wait that has not been met. The first observation raises; the
        other waits let the lock go and read again. */
    method WaitExpires(purpose: Purpose, after: int) returns (raised: bool)
      requires Valid() && WaitsFor(monitor.client, purpose, after) && !Arrived(monitor, after)
      modifies this
      ensures Valid() && monitor == Act(old(monitor), Expire)
      ensures raised <==> monitor.failures == old(monitor).failures + 1
      ensures !raised ==> monitor.client.GaveUp? || monitor.client.FellBack?
    {
      ActKeepsConsistent(monitor, Expire);
      monitor := Act(monitor, Expire);
      raised := purpose == FirstSample;
    }

    /** After a wait of `observe` has expired: what is cached now, if anything is. */
    method ReadAgain() returns (sample: Option<Sample>)
      requires Valid() && monitor.client.GaveUp?
      modifies this
      ensures Valid() && monitor == Act(old(monitor), Reread) && required == None
      ensures sample == latest && monitor.client.Idle?
      ensures sample.None? <==> monitor.failures == old(monitor).failures + 1
    {
      ActKeepsConsistent(monitor, Reread);
      monitor := Act(monitor, Reread);
      sample := latest;
      required := None;
    }

    /** After a wait of `acquire` has expired: `observe`, until it returns or has to wait. */
    method FallBack() returns (sample: Option<Sample>)
      requires Valid() && monitor.client.FellBack?
      modifies this
      ensures Valid() && monitor == Act(old(monitor), Reread)
      ensures sample == if monitor.client.Idle? then latest else None
    {
      ActKeepsConsistent(monitor, Reread);
      sample := if required.Some? then None else latest;
      monitor := Act(monitor, Reread);
    }
  }
}
