/** Runs: what any sequence of events leads to, and which event ends a run. */
module BrokerRuns {
  import opened Ledger
  import opened Messages
  import opened Options
  import opened BrokerState
  import opened BrokerBatches
  import opened BrokerClosing
  import opened BrokerGone
  import opened BrokerFacts
  import BrokerPlaces

  datatype Event =
    | ClientSays(m: Message)
    | ServerSays(b: nat, m: Message)
    | ServerEnds(b: nat)
    | Tick(changes: seq<Message>)
    | End

  /** Client requests carry ids of their own; file system changes are notifications. */
  ghost predicate Plausible(e: Event) {
    match e
    case ClientSays(m) => m.Call? ==> FromClient(m)
    case Tick(changes) => forall m :: m in changes ==> m.Call?
    case _ => true
  }

  predicate Starts(e: Event) {
    e.ClientSays? && e.m.Call? && e.m.verb.Initialize?
  }

  predicate Begins(events: seq<Event>) {
    exists e :: e in events && Starts(e)
  }

  /** What the events are owed: a reply to each request of the client, but none to an accepted `initialized`. */
  ghost function Owing(events: seq<Event>, begun: bool): multiset<Id> {
    if events == [] then multiset{}
    else
      var most, last := events[..|events| - 1], events[|events| - 1];
      Owing(most, begun) + (
        if last.ClientSays? && last.m.Call? && !(last.m.verb.Initialized? && (begun || Begins(most))) then
          IdOf(last.m)
        else
          multiset{})
  }

  /** The requests of the servers in the events. */
  ghost function Asks(events: seq<Event>): multiset<(nat, Id)> {
    if events == [] then multiset{}
    else
      var last := events[|events| - 1];
      Asks(events[..|events| - 1]) + (if last.ServerSays? then Questions(last.b, last.m) else multiset{})
  }

  predicate OfServer(e: Event, b: nat) {
    e.ServerSays? && e.b == b
  }

  /** The server has ended, and nothing came from it afterwards: its end is the last thing read from it. */
  predicate Parted(events: seq<Event>, b: nat) {
    events != [] && (
      var last := events[|events| - 1];
      last == ServerEnds(b) || (!OfServer(last, b) && Parted(events[..|events| - 1], b)))
  }

  lemma {:induction false} PartedMeaning(events: seq<Event>, b: nat)
    ensures Parted(events, b) <==> exists i :: 0 <= i < |events| && events[i] == ServerEnds(b)
                                               && forall j :: i < j < |events| ==> !OfServer(events[j], b)
  {
    if events != [] {
      var most, last := events[..|events| - 1], |events| - 1;
      PartedMeaning(most, b);
      if Parted(events, b) {
        if events[last] != ServerEnds(b) {
          var i :| 0 <= i < |most| && most[i] == ServerEnds(b) && forall j :: i < j < |most| ==> !OfServer(most[j], b);
          assert events[i] == ServerEnds(b);
          forall j | i < j < |events|
            ensures !OfServer(events[j], b)
          {
            assert j < last ==> most[j] == events[j];
          }
        }
      } else {
        forall i | 0 <= i < |events| && events[i] == ServerEnds(b)
          ensures exists j :: i < j < |events| && OfServer(events[j], b)
        {
          if !OfServer(events[last], b) {
            assert most[i] == ServerEnds(b);
            var j :| i < j < |most| && OfServer(most[j], b);
            assert OfServer(events[j], b);
          }
        }
      }
    }
  }

  /** The requests and questions of these events are on the books, and nothing was taken back. */
  ghost predicate Booked(s: State, t: State, events: seq<Event>) {
    && t.received == s.received + Owing(events, s.initialize.Some?) && t.asked == s.asked + Asks(events)
    && s.stdout <= t.stdout && s.written <= t.written
    && (t.initialize.Some? <==> s.initialize.Some? || Begins(events))
  }

  /** The servers that ended are closed, and those that did not come back are gone. */
  ghost predicate Ended(t: State, events: seq<Event>) {
    && (forall b: nat :: ServerEnds(b) in events ==> b < |t.backends| && !t.backends[b].live)
    && (forall b: nat :: Parted(events, b) ==> Gone(t, b))
  }

  /** What there is after these events. */
  ghost predicate Took(s: State, t: State, events: seq<Event>) {
    Booked(s, t, events) && Ended(t, events) && StayClosed(s.backends, t.backends)
  }

  /** The same for one event. */
  ghost predicate BookedOne(s: State, t: State, e: Event) {
    && t.received == s.received + (if e.ClientSays? then Owed(s, e.m) else multiset{})
    && t.asked == s.asked + (if e.ServerSays? then Questions(e.b, e.m) else multiset{})
    && s.stdout <= t.stdout && s.written <= t.written
    && (t.initialize.Some? <==> s.initialize.Some? || Starts(e))
  }

  ghost predicate EndedOne(s: State, t: State, e: Event) {
    && StayClosed(s.backends, t.backends) && (e.ServerEnds? ==> Gone(t, e.b))
    && (forall b :: Gone(s, b) && !OfServer(e, b) ==> Gone(t, b))
  }

  ghost predicate TookEvent(s: State, t: State, e: Event) {
    BookedOne(s, t, e) && EndedOne(s, t, e)
  }

  lemma TookClient(s: State, t: State, m: Message)
    requires t.received == s.received + Owed(s, m) && Grows(s, t) && t.initialize == Begun(s, m).initialize
    ensures TookEvent(s, t, ClientSays(m))
  {
    hide Owed, Gone;
    assert s.asked + multiset{} == s.asked;
  }

  lemma TookServer(s: State, t: State, b: nat, m: Message)
    requires Heard(s, t, b, m)
    ensures TookEvent(s, t, ServerSays(b, m)) && t.hand == s.hand
  {
    hide Questions, Gone;
    assert s.received + multiset{} == s.received;
  }

  lemma TookEnd(s: State, t: State, b: nat)
    requires b < |s.backends| && Handled(s, t, multiset{}) && Replied(Shut(s, b), t)
    ensures TookEvent(s, t, ServerEnds(b)) && t.hand == s.hand
  {
    hide Shut, Gone, OnlyErrors;
    ShutRests(s, b);
    RepliedRests(Shut(s, b), t);
    assert s.received + multiset{} == s.received && s.hand - multiset{} == s.hand;
    assert s.asked + multiset{} == s.asked;
  }

  lemma TookTick(s: State, t: State, changes: seq<Message>)
    requires Handled(s, t, multiset{})
    ensures TookEvent(s, t, Tick(changes)) && t.hand == s.hand
  {
    hide Gone;
    assert s.received + multiset{} == s.received && s.hand - multiset{} == s.hand;
    assert s.asked + multiset{} == s.asked;
  }

  lemma TookNothing(s: State)
    ensures Took(s, s, [])
  {
  }

  /** One more event. */
  lemma TookOne(s: State, t: State, u: State, events: seq<Event>, i: nat)
    requires i < |events| && Took(s, t, events[..i])
    requires TookEvent(t, u, events[i])
    ensures Took(s, u, events[..i + 1])
  {
    hide Booked, BookedOne, Ended;
    assert events[..i + 1] == events[..i] + [events[i]];
    BookedMore(s, t, u, events[..i], events[i]);
    EndedMore(t, u, events[..i], events[i]);
  }

  lemma BookedMore(s: State, t: State, u: State, most: seq<Event>, last: Event)
    requires Booked(s, t, most) && BookedOne(t, u, last)
    ensures Booked(s, u, most + [last])
  {
    hide Starts, Questions, Begins, Owing, Owed, Asks;
    BeginsMore(most, last);
    SameOwed(s.initialize.Some?, t, most, last);
    SameAsks(most, last);
    Prefixed(s.stdout, t.stdout, u.stdout);
    Prefixed(s.written, t.written, u.written);
  }

  lemma Prefixed<T>(a: seq<T>, b: seq<T>, c: seq<T>)
    requires a <= b && b <= c
    ensures a <= c
  {
  }

  lemma SameAsks(most: seq<Event>, last: Event)
    ensures Asks(most + [last])
         == Asks(most) + (if last.ServerSays? then Questions(last.b, last.m) else multiset{})
  {
    hide Questions;
    assert (most + [last])[..|most|] == most;
  }

  lemma SameOwed(begun: bool, t: State, most: seq<Event>, last: Event)
    requires t.initialize.Some? <==> begun || Begins(most)
    ensures Owing(most + [last], begun)
         == Owing(most, begun) + (if last.ClientSays? then Owed(t, last.m) else multiset{})
  {
    hide Begins;
    assert (most + [last])[..|most|] == most;
  }

  lemma EndedMore(t: State, u: State, most: seq<Event>, last: Event)
    requires Ended(t, most) && EndedOne(t, u, last)
    ensures Ended(u, most + [last])
  {
    hide Gone, OfServer;
    var events := most + [last];
    assert events[..|most|] == most;
    forall b: nat | ServerEnds(b) in events
      ensures b < |u.backends| && !u.backends[b].live
    {
      if last == ServerEnds(b) {
        GoneIsClosed(u, b);
      } else {
        assert ServerEnds(b) in most;
      }
    }
  }

  lemma GoneIsClosed(s: State, b: nat)
    requires Gone(s, b)
    ensures b < |s.backends| && !s.backends[b].live
  {
  }

  lemma BeginsMore(events: seq<Event>, e: Event)
    ensures Begins(events + [e]) <==> Begins(events) || Starts(e)
  {
    hide Starts;
    if Starts(e) {
      assert e in events + [e];
    }
    if Begins(events) {
      var d :| d in events && Starts(d);
      assert d in events + [e];
    }
  }

  // Which events end a run.

  /** The run goes on after this event, whatever happens outside. */
  ghost predicate Safe(s: State, e: Event) {
    match e
    case ClientSays(m) =>
      m.Call? && (m.id.Some? || (s.initialize.Some? && (m.verb.Initialized? || (PlainCall(m) && !s.clientReady))))
    case ServerSays(b, m) =>
      b < |s.backends| && (m.Call? || (Expected(s, b, m) && Certain(s, s.pending[m.id.value].waiting, m)))
    case ServerEnds(b) => b < |s.backends| && s.host != Some(b)
    case Tick(_) => true
    case End => false
  }

  /** The run ends with this event, whatever happens outside. */
  ghost predicate Fatal(s: State, e: Event) {
    match e
    case ClientSays(m) =>
      if m.Reply? then
        m.id.None? || m.id.value !in s.replies
        || (s.replies[m.id.value].owner < |s.backends| && !s.backends[s.replies[m.id.value].owner].live)
      else m.id.None? && ((s.initialize.None? && !m.verb.Initialize?) || (Homeless(m) && s.clientReady))
    case ServerSays(b, m) =>
      b >= |s.backends|
      || (m.Reply? && (!Expected(s, b, m) || Unfit(s, s.pending[m.id.value].waiting, m)
                       || (Accepts(s, m) && HomelessParked(s))))
    case ServerEnds(b) => b >= |s.backends| || s.host == Some(b)
    case Tick(_) => false
    case End => true
  }

  /** A reply that a closed server still sends is fatal. */
  lemma LateReplyIsFatal(s: State, b: nat, m: Message)
    requires Valid(s) && m.Reply? && b < |s.backends| && !s.backends[b].live
    ensures Fatal(s, ServerSays(b, m))
  {
    hide Valid, Certain, Unfit, Accepts;
    NothingExpected(s, b, m);
  }

  // The states of a run.

  /** The states between the events, up to the first event that ended the run. */
  ghost predicate Trail(states: seq<State>, events: seq<Event>) {
    && 0 < |states| <= |events| + 1
    && (forall i :: 0 <= i < |states| ==> Valid(states[i]) && states[i].hand == multiset{})
    && (forall i :: 0 <= i < |states| - 1 ==>
          TookEvent(states[i], states[i + 1], events[i]) && !Fatal(states[i], events[i]))
  }

  lemma TrailStarts(s: State, events: seq<Event>)
    requires Valid(s) && s.hand == multiset{}
    ensures Trail([s], events)
  {
    hide Valid;
  }

  lemma TrailGrows(states: seq<State>, t: State, events: seq<Event>)
    requires Trail(states, events) && |states| <= |events| && Valid(t) && t.hand == multiset{}
    requires TookEvent(states[|states| - 1], t, events[|states| - 1])
    requires !Fatal(states[|states| - 1], events[|states| - 1])
    ensures Trail(states + [t], events)
  {
    hide Valid, TookEvent, Fatal;
    var more := states + [t];
    forall i | 0 <= i < |more| - 1
      ensures TookEvent(more[i], more[i + 1], events[i]) && !Fatal(more[i], events[i])
    {
      if i < |states| - 1 {
        assert more[i] == states[i] && more[i + 1] == states[i + 1];
      }
    }
  }

  lemma {:induction false} TrailTook(states: seq<State>, events: seq<Event>, i: nat)
    requires Trail(states, events) && i < |states|
    ensures Took(states[0], states[i], events[..i])
  {
    hide Valid, Took, TookEvent, Fatal;
    if i == 0 {
      TookNothing(states[0]);
    } else {
      TrailTook(states, events, i - 1);
      TookOne(states[0], states[i - 1], states[i], events, i - 1);
    }
  }

  /** A reply of a server whose end was seen before ends the run, if it still goes on then. */
  lemma LateReplyEndsTheRun(states: seq<State>, events: seq<Event>, i: nat, j: nat)
    requires Trail(states, events) && i < j < |events|
    requires events[i].ServerEnds? && OfServer(events[j], events[i].b) && events[j].m.Reply?
    ensures |states| <= j + 1
  {
    hide Valid, TookEvent, Fatal, Booked;
    if |states| > j + 1 {
      TrailTook(states, events, j);
      assert events[..j][i] == ServerEnds(events[i].b);
      LateReplyIsFatal(states[j], events[i].b, events[j].m);
    }
  }

  /** Events that end no run: requests of the client, notifications and requests of the servers there are, their
      ends, and the rounds of maintenance. The native server is always the first one. */
  predicate Tame(e: Event, count: nat) {
    match e
    case ClientSays(m) => m.Call? && m.id.Some?
    case ServerSays(b, m) => b < count && m.Call?
    case ServerEnds(b) => 0 < b < count
    case Tick(_) => true
    case End => false
  }

  lemma TameIsSafe(s: State, e: Event, count: nat)
    requires Valid(s) && count <= |s.backends| && Tame(e, count)
    ensures Safe(s, e)
  {
    hide Balanced, Named, Known, Asking, Logged, Batching, ProjectsOk, OwnersOk, ReadyOk, ActivationsOk, RunsThread;
    hide Expected, Certain, PlainCall;
  }

  lemma TameRuns(states: seq<State>, events: seq<Event>)
    requires Trail(states, events) && forall e :: e in events ==> Tame(e, |states[0].backends|)
    ensures |states| <= |events| ==> Safe(states[|states| - 1], events[|states| - 1])
  {
    hide Valid, TookEvent, Fatal, Booked, Ended, Tame, Safe;
    var last := |states| - 1;
    if |states| <= |events| {
      TrailTook(states, events, last);
      assert events[last] in events;
      TameIsSafe(states[last], events[last], |states[0].backends|);
    }
  }

  // What every run from the start keeps.

  /** A request that was sent once is in exactly one place after any run. */
  lemma SentOnce(native: bool, t: State, events: seq<Event>, id: Id) returns (place: BrokerPlaces.Place)
    requires Valid(t) && t.hand == multiset{} && Took(Initial(native), t, events)
    requires id.Given? && Owing(events, false)[id] == 1
    ensures BrokerPlaces.OnlyAt(t, place, id)
  {
    hide Valid, Owing, Ended, BrokerPlaces.OnlyAt;
    place := BrokerPlaces.OncePerRequest(t, id);
  }

  /** An id is answered at most as often as requests under it were owed an answer. */
  lemma AnsweredInRuns(native: bool, t: State, events: seq<Event>, id: Id)
    requires Valid(t) && Took(Initial(native), t, events)
    ensures Sum(t.stdout, AnswerOf)[id] <= Owing(events, false)[id]
  {
    hide Valid, Owing, Ended, Sum;
    BrokerPlaces.AnswersAreOwed(t, id);
  }

  /** Nothing but `initialized` was sent under this id, and that only after `initialize`. */
  predicate OnlyInitialized(events: seq<Event>, id: Id) {
    forall i :: 0 <= i < |events| && events[i].ClientSays? && events[i].m.Call? && events[i].m.id == Some(id) ==>
      events[i].m.verb.Initialized? && Begins(events[..i])
  }

  lemma {:induction false} NothingOwed(events: seq<Event>, id: Id)
    requires OnlyInitialized(events, id)
    ensures Owing(events, false)[id] == 0
  {
    hide Begins;
    if events != [] {
      var most := events[..|events| - 1];
      forall i | 0 <= i < |most|
        ensures most[i] == events[i] && most[..i] == events[..i]
      {
      }
      NothingOwed(most, id);
    }
  }

  /** `initialized` sent as a request is never answered. */
  lemma InitializedIsNeverAnswered(native: bool, t: State, events: seq<Event>, id: Id, k: nat)
    requires Valid(t) && Took(Initial(native), t, events) && OnlyInitialized(events, id)
    requires k < |t.stdout| && t.stdout[k].Reply?
    ensures t.stdout[k].id != Some(id)
  {
    hide Valid, Owing, Ended, Sum, OnlyInitialized, Took;
    AnsweredInRuns(native, t, events, id);
    NothingOwed(events, id);
    if t.stdout[k].id == Some(id) {
      BrokerPlaces.SumHas(t.stdout, k, AnswerOf, id);
    }
  }

  /** A server that has ended and did not come back owns nothing, has nothing waiting, and is in no table. */
  lemma EndedForGood(s: State, t: State, events: seq<Event>, b: nat)
    requires Valid(t) && Took(s, t, events) && Parted(events, b)
    ensures Gone(t, b) && !Attached(RolesOf(t), t.backends, b) && Unnamed(t.projects, b) && b !in t.activations
    ensures forall id :: id in t.pending ==> t.pending[id].owner != b
  {
    hide Valid, Owing, Booked, Parted, Attached;
    GoneOwnsNothing(t, b);
  }

  lemma GoneOwnsNothing(s: State, b: nat)
    requires Valid(s) && Gone(s, b)
    ensures !Attached(RolesOf(s), s.backends, b) && Unnamed(s.projects, b) && b !in s.activations
    ensures forall id :: id in s.pending ==> s.pending[id].owner != b
  {
    hide Balanced, Named, Known, Asking, Logged, Batching, ReadyOk, RunsThread, InitPending, Initializes;
    forall id | id in s.pending
      ensures s.pending[id].owner != b
    {
      assert OwnerOk(RolesOf(s), s.backends, s.pending[id]);
    }
  }

  /** Once every server has ended and nothing came from it afterwards, no request is under way, waiting or
      split: each one received was answered or is still parked. */
  lemma NothingIsLost(s: State, t: State, events: seq<Event>, id: Id)
    requires Valid(t) && t.hand == multiset{} && Took(s, t, events)
    requires forall b: nat :: b < |t.backends| ==> Parted(events, b)
    ensures t.pending == map[] && t.activations == map[] && t.batches == map[] && t.batchRequests == map[]
    ensures id.Given? ==> t.received[id] == Sum(t.clientQueue, IdOf)[id] + Sum(t.stdout, AnswerOf)[id]
  {
    hide Valid, Owing, Booked, Parted, Sum;
    forall b | 0 <= b < |t.backends|
      ensures !t.backends[b].live && t.backends[b].queue == []
    {
      assert Parted(events, b);
    }
    BrokerPlaces.NothingIsLeft(t, id);
  }
}
