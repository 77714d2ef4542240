/** What the methods of the broker use about its states: when a step is allowed, how much
    it changes, and how the effects of several steps add up. */
module BrokerFacts {
  import opened Messages
  import opened Options
  import opened BatchJoin
  import opened Ledger
  import opened BrokerState
  import opened BrokerSteps
  import opened BrokerClosing
  import opened BrokerBatches
  import opened BrokerGone

  lemma FirstIsIdle(s: State)
    requires Core(s)
    ensures Waiters(s, 0) == [] && ActivationIds([]) == multiset{}
  {
    hide Balanced, Named, Known, Asking, Logged, ProjectsOk, OwnersOk, ReadyOk, RunsThread;
  }

  lemma HandledSame(s: State, t: State)
    requires t.hand == s.hand + multiset{} && t.received == s.received && |t.backends| == |s.backends|
    requires t.initialize == s.initialize && Grows(s, t)
    ensures Handled(s, t, multiset{})
  {
    assert s.hand + multiset{} == s.hand - multiset{};
  }

  lemma SameHandled(s: State, t: State, u: State, ids: multiset<Id>)
    requires t.hand == s.hand && t.received == s.received && |t.backends| == |s.backends|
    requires t.initialize == s.initialize && Grows(s, t)
    requires Handled(t, u, ids)
    ensures Handled(s, u, ids)
  {
    hide Grows;
    GrowsMore(s, t, u);
  }

  lemma HandledMore(s: State, t: State, u: State, first: multiset<Id>, later: multiset<Id>)
    requires Handled(s, t, first) && Handled(t, u, later)
    ensures Handled(s, u, first + later)
    ensures first == multiset{} ==> Handled(s, u, later)
    ensures later == multiset{} ==> Handled(s, u, first)
  {
    hide Grows;
    GrowsMore(s, t, u);
    assert s.hand - first - later == s.hand - (first + later);
    assert first == multiset{} ==> first + later == later;
    assert later == multiset{} ==> first + later == first;
  }

  lemma HandledFacts(s: State, t: State, ids: multiset<Id>)
    requires Handled(s, t, ids)
    ensures t.hand == s.hand - ids && t.received == s.received && |s.backends| <= |t.backends|
    ensures t.initialize == s.initialize && Grows(s, t)
    ensures s.hand - multiset{} == s.hand
  {
  }

  lemma ClientReadyKeeps(s: State)
    requires Core(s)
    ensures Core(s.(clientReady := true))
  {
    hide StateOk, ProjectsOk, OwnersOk, ReadyOk, ActivationsOk, HeldIn, QuestionsOk, OwnersKnown, LogOk, Within;
    hide MintedBefore, QueuedOk, BackendsPlain, PendingPlain, ActivationsPlain, BatchesPlain, AnswersOwn;
  }

  lemma UnparkedValid(s: State)
    requires Valid(s)
    ensures Valid(s.(clientQueue := [], hand := s.hand + Sum(s.clientQueue, IdOf)))
    ensures forall m :: m in s.clientQueue ==> PlainCall(m) && FromClient(m)
  {
    hide StateOk, ProjectsOk, OwnersOk, ReadyOk, ActivationsOk, QuestionsOk, OwnersKnown, LogOk, Within, Batching;
    hide MintedBefore, BackendsPlain, PendingPlain, ActivationsPlain, BatchesPlain, AnswersOwn, Sum, Tally;
    SumNone<Message, Id>([], IdOf);
    var t := s.(clientQueue := [], hand := s.hand + Sum(s.clientQueue, IdOf));
    assert Held(s) == Held(t) + Sum(s.clientQueue, IdOf);
    Taken(s, t, Sum(s.clientQueue, IdOf));
  }

  lemma UnparkedHandled(s: State, unparked: State, t: State)
    requires unparked == s.(clientQueue := [], hand := s.hand + Sum(s.clientQueue, IdOf))
    requires Handled(unparked, t, Sum(s.clientQueue, IdOf))
    ensures Handled(s, t, multiset{})
  {
    hide Sum;
    assert s.hand + Sum(s.clientQueue, IdOf) - Sum(s.clientQueue, IdOf) == s.hand - multiset{};
  }

  lemma RespondedBackends(s: State, response: Message)
    requires Joins(s, response)
    ensures Responded(s, response).backends == s.backends && Responded(s, response).opening == s.opening
    ensures Responded(s, response).clientQueue == s.clientQueue
  {
    hide Join, LastError, PartsWith, Next, BatchReply, PartIn, Completed, Printed;
    if !IsPart(s, response) {
      PrintedBackends(s, response);
    } else if s.batches[s.batchRequests[response.id.value]].remaining > 1 {
      PartBackends(s, response);
    } else {
      CompletedBackends(s, response);
    }
  }

  lemma PrintedBackends(s: State, m: Message)
    ensures Printed(s, m).backends == s.backends && Printed(s, m).opening == s.opening
    ensures Printed(s, m).clientQueue == s.clientQueue
  {
  }

  lemma PartBackends(s: State, response: Message)
    requires IsPart(s, response) && Joins(s, response) && s.batches[s.batchRequests[response.id.value]].remaining > 1
    ensures PartIn(s, response).backends == s.backends && PartIn(s, response).opening == s.opening
    ensures PartIn(s, response).clientQueue == s.clientQueue
  {
    hide Join, LastError, PartsWith, Next, Joins;
  }

  lemma CompletedBackends(s: State, response: Message)
    requires IsPart(s, response) && Joins(s, response)
    ensures Completed(s, response).backends == s.backends && Completed(s, response).opening == s.opening
    ensures Completed(s, response).clientQueue == s.clientQueue
  {
    hide Join, LastError, PartsWith, BatchReply, Joins;
  }

  /** A reply is taken only from the server it is expected of. */
  predicate Expected(s: State, b: nat, m: Message) {
    m.id.Some? && m.id.value in s.pending && s.pending[m.id.value].owner == b
  }

  /** Nothing is expected of a closed server. */
  lemma NothingExpected(s: State, b: nat, m: Message)
    requires Valid(s) && b < |s.backends| && !s.backends[b].live
    ensures !Expected(s, b, m)
  {
    hide Balanced, Named, Known, Asking, Logged, Batching, StateOk, ProjectsOk, ReadyOk, ActivationsOk, Attached;
    assert Expected(s, b, m) ==> OwnerOk(RolesOf(s), s.backends, s.pending[m.id.value]);
  }

  /** The outcome of a reply to what waits here depends on nothing but the state. */
  ghost predicate Certain(s: State, w: Waiting, m: Message)
    requires m.Reply?
  {
    match w
    case ForLocate(_) => true
    case ForInitialize => m.error.Some?
    case ForActivate(_) => m.error.Some?
    case ForClient(original) => original.Call? && !original.verb.Initialize? && Joins(s, WithId(m, original.id))
  }

  /** The reply to a part of a split request whose lists and single values do not fit those of the other parts. */
  ghost predicate Unfit(s: State, w: Waiting, m: Message)
    requires m.Reply?
  {
    w.ForClient? && w.original.Call? && !w.original.verb.Initialize? && !Joins(s, WithId(m, w.original.id))
  }

  lemma CertainAlike(s: State, t: State, w: Waiting, m: Message)
    requires m.Reply? && SameGroups(s, t) && t.clientQueue == s.clientQueue
    ensures Certain(s, w, m) <==> Certain(t, w, m)
    ensures Unfit(s, w, m) <==> Unfit(t, w, m)
    ensures HomelessParked(s) <==> HomelessParked(t)
  {
    hide Joins, HomelessParked;
    ParkedAlike(s, t);
    if w.ForClient? {
      SameJoins(s, t, WithId(m, w.original.id));
    }
  }

  /** An entry was taken out for the reply of its server, and is being settled. */
  ghost predicate Settling(s: State, b: nat, w: Waiting) {
    && Core(s) && Batching(s.batches, s.batchRequests, s.parts, None, 0) && s.initialize.Some?
    && b < |s.backends| && s.backends[b].live && Attached(RolesOf(s), s.backends, b)
    && OriginalOf(w) <= s.hand && s.opening == (if w.ForInitialize? then Some(b) else None)
    && (!w.ForInitialize? ==> w.original.Call?) && (Initializes(w) ==> b == 0)
    && (w.ForActivate? ==> IsProject(RolesOf(s), s.backends, b))
    && (w.ForLocate? || w.ForActivate? ==> PlainCall(w.original) && FromClient(w.original))
  }

  lemma SettlingNow(s: State, id: Id)
    requires Valid(s) && id in s.pending
    ensures var w := s.pending[id].waiting;
      && Settling(Settled(s, id), s.pending[id].owner, w) && SameGroups(s, Settled(s, id))
      && Settled(s, id).clientQueue == s.clientQueue
  {
    hide Core, Batching, OwnerOk, PlainWait;
    SettledKeeps(s, id);
    SettledFacts(s, id);
  }

  lemma OriginalJoins(s: State, original: Message, m: Message)
    requires Valid(s) && FromClient(original)
    ensures Joins(s, WithId(m, original.id))
  {
    hide Balanced, Routed, Known, Asking, Logged, Batching, QueuedOk, BackendsPlain, PendingPlain, ActivationsPlain;
    hide BatchesPlain, AnswersOwn;
  }

  /** The split requests are untouched. */
  ghost predicate SameGroups(s: State, t: State) {
    t.batches == s.batches && t.batchRequests == s.batchRequests && t.parts == s.parts
  }

  lemma SameJoins(s: State, t: State, response: Message)
    requires t.batches == s.batches && t.batchRequests == s.batchRequests && t.parts == s.parts
    ensures Joins(s, response) <==> Joins(t, response)
  {
    hide Join;
  }

  /** The reply was joined or printed. */
  ghost predicate AnsweredWith(s: State, t: State, response: Message) {
    Joins(s, response) && t == Responded(s, response)
  }

  /** The shared server is being asked where the thread of this request lives. */
  ghost predicate Locating(s: State, original: Message) {
    s.common.Some? && exists id :: id in s.pending && s.pending[id] == Pending(s.common.value, ForLocate(original))
  }

  lemma LocatingNow(s: State, b: nat, lookup: Message, original: Message)
    requires s.common == Some(b)
    ensures Locating(Requested(s, b, Lookup, lookup, ForLocate(original)), original)
  {
    var t := Requested(s, b, Lookup, lookup, ForLocate(original));
    assert t.pending[Fresh(s.minted)] == Pending(b, ForLocate(original));
  }

  /** The server that both holds the thread and is shared was closed; otherwise nothing happened. */
  ghost predicate Released(s: State, t: State, thread: string) {
    if thread in s.threads && s.common == Some(s.threads[thread]) then
      s.threads[thread] < |s.backends| && Replied(Shut(s, s.threads[thread]), t)
    else
      t == s
  }

  lemma ReleasedIsClosed(s: State, t: State, thread: string)
    requires thread in s.threads && s.common == Some(s.threads[thread]) && Released(s, t, thread)
    ensures s.threads[thread] < |t.backends| && !t.backends[s.threads[thread]].live
  {
    hide OnlyErrors, DroppedWith;
  }

  /** The server was closed, and what it had was answered with errors. */
  ghost predicate Refused(s: State, t: State, b: nat) {
    b < |s.backends| && Replied(Shut(s, b), t)
  }

  /** The request was sent on to the server that resumed its thread. */
  ghost predicate SentOn(s: State, t: State, b: nat, original: Message, m: Message) {
    && b < |s.backends|
    && t == Dispatched(s.(threads := Remember(s.threads, b, m.about), threadCwds := RememberCwd(s.threadCwds, m.about)),
                       b, original)
  }

  lemma ProjectNotCurrent(s: State, b: nat)
    requires Valid(s) && IsProject(RolesOf(s), s.backends, b)
    ensures !Current(RolesOf(s), b)
  {
    hide Balanced, Named, Known, Asking, Logged, Batching, OwnersOk, ReadyOk, ActivationsOk, RunsThread, InitPending;
  }

  function Initial(native: bool): State {
    State([Backend(true, false, [], None)], map[], map[], map[], map[], map[], map[], map[], None, false, [],
          if native then Some(0) else None, if native then None else Some(0), map[], map[], map[], 0, [], [],
          multiset{}, multiset{}, map[], multiset{}, multiset{}, None)
  }

  lemma InitialValid(native: bool)
    ensures Valid(Initial(native))
  {
    hide Balanced, Named, Routed, Known, Asking, Logged, Batching;
    InitialBooks(native);
    InitialRoutes(native);
    InitialLogs(native);
  }

  lemma InitialBooks(native: bool)
    ensures var s := Initial(native);
      && Balanced(s) && Named(s) && Batching(s.batches, s.batchRequests, s.parts, None, 0) && s.opening.None?
  {
    var s := Initial(native);
    assert s.backends == [] + [s.backends[0]];
    SumPush([], s.backends[0], QueueIds);
    assert Held(s) == multiset{};
  }

  lemma InitialRoutes(native: bool)
    ensures Routed(Initial(native)) && Known(Initial(native))
  {
  }

  lemma InitialLogs(native: bool)
    ensures Asking(Initial(native)) && Logged(Initial(native))
  {
  }

  /** Nothing depends on the server: the condition under which the maintenance round may close it. */
  ghost predicate Unused(s: State, b: nat) {
    && b < |s.backends| && s.backends[b].queue == []
    && (forall id :: id in s.pending ==> s.pending[id].owner != b)
    && (forall id :: id in s.replies ==> s.replies[id].owner != b)
    && (forall t :: t in s.activeTurns ==> s.activeTurns[t] != b)
  }

  /** No request, answer or split request differs. */
  ghost predicate LostNothing(s: State, t: State) {
    && t.stdout == s.stdout && t.pending == s.pending && t.activations == s.activations && t.replies == s.replies
    && t.batches == s.batches && t.batchRequests == s.batchRequests && t.parts == s.parts && t.dropped == s.dropped
    && t.clientQueue == s.clientQueue && |t.backends| == |s.backends|
    && forall b :: 0 <= b < |s.backends| ==> t.backends[b].queue == s.backends[b].queue
  }

  lemma SameLost(s: State)
    ensures LostNothing(s, s)
  {
  }

  lemma LostMore(s: State, t: State, u: State)
    requires LostNothing(s, t) && LostNothing(t, u)
    ensures LostNothing(s, u)
  {
  }

  lemma LostFacts(s: State, t: State)
    requires LostNothing(s, t)
    ensures t.pending == s.pending && |t.backends| == |s.backends|
  {
  }

  /** A thread waits only for a server whose handshake is still under way, so `maintain` need not look. */
  lemma UnusedIsIdle(s: State, b: nat)
    requires Valid(s) && Unused(s, b)
    ensures Idle(s, b)
  {
    hide Balanced, Named, Known, Asking, Logged, Batching, StateOk, OwnersOk, ReadyOk, RunsThread;
    assert OwnedBy(s.pending, b) == {};
    assert b in s.activations ==> InitPending(s.pending, b);
  }

  /** Idle eviction loses no work. */
  lemma ShutLosesNothing(s: State, b: nat)
    requires b < |s.backends| && Unused(s, b) && Idle(s, b)
    ensures LostNothing(s, Shut(s, b))
  {
    hide Others, Cleared;
    assert OwnedBy(s.pending, b) == {} && AskedFrom(s.replies, b) == {};
    assert Restrict(s.replies, {}) == map[];
    assert s.replies - {} == s.replies && s.pending - {} == s.pending && s.activations - {b} == s.activations;
    assert s.dropped + multiset{} == s.dropped;
  }

  lemma ReceivedValid(s: State, m: Message)
    requires Valid(s) && s.hand == multiset{} && m.Call? && FromClient(m)
    ensures Valid(s.(received := s.received + Owed(s, m), hand := Owed(s, m)))
  {
    hide StateOk, ProjectsOk, OwnersOk, ReadyOk, ActivationsOk, HeldIn, QuestionsOk, OwnersKnown, LogOk, Within;
    hide MintedBefore, QueuedOk, BackendsPlain, PendingPlain, ActivationsPlain, BatchesPlain, AnswersOwn, Batching;
    var t := s.(received := s.received + Owed(s, m), hand := Owed(s, m));
    forall x: Id
      ensures (Held(t) + t.hand)[x] == (t.received + multiset(t.batchRequests.Keys))[x]
    {
      assert (Held(s) + s.hand)[x] == (s.received + multiset(s.batchRequests.Keys))[x];
    }
  }

  ghost function OpenedNow(s: State, b: nat): State
    requires b < |s.backends|
  {
    Opened(s, b, Line(b, Greeting, GREETING)).(hand := s.hand + ActivationIds(Waiters(s, b)))
  }

  function Resumes(waiting: seq<Activation>): seq<Message> {
    seq(|waiting|, i requires 0 <= i < |waiting| => waiting[i].resume)
  }

  /** A line carries a message, under an id of its own if it is a request. */
  predicate Carries(line: Line, b: nat, via: Via, m: Message) {
    line.to == b && line.via == via && line.message == WithId(m, line.message.id)
  }

  /** The messages were written to the server in this order, and nothing else was written. */
  ghost predicate Wrote(before: seq<Line>, after: seq<Line>, b: nat, via: Via, messages: seq<Message>) {
    && |after| == |before| + |messages| && before <= after
    && forall i :: 0 <= i < |messages| ==> Carries(after[|before| + i], b, via, messages[i])
  }

  /** The handshake is acknowledged, then waiting threads are resumed, then queued messages follow. */
  ghost predicate Flushed(s: State, t: State, b: nat)
    requires b < |s.backends|
  {
    var n := |s.written| + 1 + |Waiters(s, b)|;
    && n <= |t.written|
    && Wrote(s.written + [Line(b, Greeting, GREETING)], t.written[..n], b, Resume, Resumes(Waiters(s, b)))
    && Wrote(t.written[..n], t.written, b, Via.Dispatch, s.backends[b].queue)
  }

  /** The servers and the client's queue are as they were. */
  ghost predicate Steady(s: State, t: State) {
    RolesOf(t) == RolesOf(s) && t.backends == s.backends && t.clientQueue == s.clientQueue
  }

  lemma SteadyNothing(s: State)
    ensures Steady(s, s)
  {
  }

  lemma SteadyFacts(s: State, t: State)
    requires Steady(s, t)
    ensures RolesOf(t) == RolesOf(s) && t.backends == s.backends && t.clientQueue == s.clientQueue
  {
  }

  lemma SteadyMore(s: State, t: State, u: State)
    requires Steady(s, t) && Steady(t, u)
    ensures Steady(s, u)
  {
  }

  lemma RequestedSteady(s: State, b: nat, via: Via, m: Message, waiting: Waiting)
    requires m.Call?
    ensures var t := Requested(s, b, via, m, waiting);
      && Steady(s, t) && |t.written| == |s.written| + 1 && s.written == t.written[..|s.written|]
      && Carries(t.written[|s.written|], b, via, m)
  {
  }

  lemma SentSteady(s: State, b: nat, via: Via, m: Message)
    requires m.id.None?
    ensures var t := Sent(s, Line(b, via, m));
      && Steady(s, t) && |t.written| == |s.written| + 1 && s.written == t.written[..|s.written|]
      && Carries(t.written[|s.written|], b, via, m)
  {
  }

  lemma ResumedSteady(s: State, b: nat, a: Activation)
    requires a.resume.Call?
    ensures var t := Resumed(s, b, a);
      && Steady(s, t) && |t.written| == |s.written| + 1 && s.written == t.written[..|s.written|]
      && Carries(t.written[|s.written|], b, Resume, a.resume)
  {
    hide Requested, Steady, Carries;
    RequestedSteady(s, b, Resume, a.resume, ForActivate(a.original));
  }

  lemma DeliveredSteady(s: State, b: nat, m: Message)
    requires b < |s.backends| && s.backends[b].ready && m.Call?
    ensures var t := Dispatched(s, b, m);
      && Steady(s, t) && |t.written| == |s.written| + 1 && s.written == t.written[..|s.written|]
      && Carries(t.written[|s.written|], b, Via.Dispatch, m)
  {
    hide Requested, Sent, Steady, Carries;
    if m.id.Some? {
      RequestedSteady(s, b, Via.Dispatch, m, ForClient(m));
    } else {
      SentSteady(s, b, Via.Dispatch, m);
    }
  }

  lemma WroteNothing(written: seq<Line>, b: nat, via: Via, messages: seq<Message>)
    ensures Wrote(written, written, b, via, messages[..0])
  {
  }

  lemma WroteOne(before: seq<Line>, middle: seq<Line>, after: seq<Line>, b: nat, via: Via, messages: seq<Message>,
                 i: nat)
    requires i < |messages| && Wrote(before, middle, b, via, messages[..i])
    requires |after| == |middle| + 1 && middle == after[..|middle|] && Carries(after[|middle|], b, via, messages[i])
    ensures Wrote(before, after, b, via, messages[..i + 1])
  {
    hide Carries;
    forall k {:trigger messages[k]} | 0 <= k < i + 1
      ensures Carries(after[|before| + k], b, via, messages[k])
    {
      if k < i {
        assert messages[..i][k] == messages[k] && after[|before| + k] == middle[|before| + k];
      }
    }
  }

  /** What is in hand before and after one more message of a list. */
  lemma NextInHand(hand: multiset<Id>, messages: seq<Message>, i: nat)
    requires i < |messages| && Sum(messages, IdOf) <= hand
    ensures var left := hand - Sum(messages[..i], IdOf);
      && IdOf(messages[i]) <= left && left - IdOf(messages[i]) == hand - Sum(messages[..i + 1], IdOf)
      && (messages[i].id.None? ==> left == hand - Sum(messages[..i + 1], IdOf))
  {
    hide Sum;
    SumPrefix(messages, i, IdOf);
  }

  lemma StillInHand(hand: multiset<Id>, done: multiset<Id>, next: multiset<Id>, all: multiset<Id>)
    requires done + next <= all && all <= hand
    ensures next <= hand - done
  {
  }

  lemma MovedTwice(s: State, t: State, u: State, first: multiset<Id>, later: multiset<Id>)
    requires Moved(s, t, first) && Moved(t, u, later)
    ensures Moved(s, u, first + later)
  {
    assert s.hand - first - later == s.hand - (first + later);
  }

  lemma ValidNow(s: State)
    requires Core(s) && s.opening.None? && Batching(s.batches, s.batchRequests, s.parts, None, 0)
    ensures Valid(s)
  {
    hide Core, Batching;
  }

  lemma DrainedValid(s: State, b: nat)
    requires Valid(s) && b < |s.backends| && Core(Drained(s, b).(hand := s.hand + QueueIds(s.backends[b])))
    ensures Valid(Drained(s, b).(hand := s.hand + QueueIds(s.backends[b])))
  {
    hide Core, Batching;
  }

  lemma DrainedServed(s: State, drained: State, t: State, b: nat)
    requires b < |s.backends| && drained == Drained(s, b).(hand := s.hand + QueueIds(s.backends[b]))
    requires Moved(drained, t, Sum(s.backends[b].queue, IdOf))
    ensures Served(s, t, multiset{})
  {
    hide Sum;
    assert s.hand + QueueIds(s.backends[b]) - QueueIds(s.backends[b]) == s.hand - multiset{};
  }

  lemma WaitersFacts(s: State, b: nat)
    requires Core(s)
    ensures AllPlain(Waiters(s, b)) && (Waiters(s, b) != [] ==> IsProject(RolesOf(s), s.backends, b))
  {
    hide Balanced, Known, Asking, Logged, StateOk, ProjectsOk, OwnersOk, ReadyOk, IsProject;
    if b !in s.activations {
      NoneWaiting();
    }
  }

  lemma OpenedFacts(s: State, b: nat)
    requires b < |s.backends|
    ensures var t := OpenedNow(s, b);
      && t.hand == s.hand + ActivationIds(Waiters(s, b)) && t.received == s.received && t.initialize == s.initialize
      && t.backends == s.backends[b := s.backends[b].(ready := true)] && t.clientQueue == s.clientQueue
      && t.written == s.written + [Line(b, Greeting, GREETING)] && t.opening.None? && Grows(s, t) && SameGroups(s, t)
      && (IsProject(RolesOf(s), s.backends, b) ==> IsProject(RolesOf(t), t.backends, b))
  {
  }

  lemma FlushedInSteps(s: State, first: State, second: State, t: State, b: nat)
    requires b < |s.backends| && first == OpenedNow(s, b)
    requires Moved(first, second, ActivationIds(Waiters(s, b))) && Steady(first, second)
    requires Wrote(first.written, second.written, b, Resume, Resumes(Waiters(s, b)))
    requires Served(second, t, multiset{})
    requires Wrote(second.written, t.written, b, Via.Dispatch, second.backends[b].queue)
    ensures Flushed(s, t, b) && Handled(s, t, multiset{})
  {
    hide OpenedNow, Waiters, Moved, Served, Wrote, Flushed, Grows;
    OpenedFacts(s, b);
    MovedFacts(first, second, ActivationIds(Waiters(s, b)));
    ServedFacts(second, t, multiset{});
    FlushedLines(s, second.written, t, b);
    GrowsMore(s, first, second);
    GrowsMore(s, second, t);
    assert s.hand + ActivationIds(Waiters(s, b)) - ActivationIds(Waiters(s, b)) - multiset{} == s.hand - multiset{};
  }

  lemma FlushedLines(s: State, middle: seq<Line>, t: State, b: nat)
    requires b < |s.backends|
    requires Wrote(s.written + [Line(b, Greeting, GREETING)], middle, b, Resume, Resumes(Waiters(s, b)))
    requires Wrote(middle, t.written, b, Via.Dispatch, s.backends[b].queue)
    ensures Flushed(s, t, b)
  {
    hide Carries, Waiters;
    assert t.written[..|middle|] == middle;
  }

  lemma ClosedHandled(s: State, b: nat)
    requires b < |s.backends|
    ensures forall t :: Replied(Shut(s, b), t) ==> Handled(s, t, multiset{})
  {
    assert s.hand - multiset{} == s.hand;
  }

  lemma SettledFacts(s: State, id: Id)
    requires id in s.pending && OwnerOk(RolesOf(s), s.backends, s.pending[id]) && PlainWait(s.pending[id].waiting)
    requires s.opening.None?
    ensures var entry := s.pending[id];
      && entry.owner < |s.backends| && s.backends[entry.owner].live
      && Attached(RolesOf(s), s.backends, entry.owner)
      && (entry.waiting.ForActivate? ==> IsProject(RolesOf(s), s.backends, entry.owner))
      && (entry.waiting.ForClient? && entry.waiting.original.verb.Initialize? ==> entry.owner == 0)
      && (!entry.waiting.ForInitialize? ==> entry.waiting.original.Call?)
      && (entry.waiting.ForLocate? || entry.waiting.ForActivate? ==>
            PlainCall(entry.waiting.original) && FromClient(entry.waiting.original))
  {
  }

  lemma SettledHandled(s: State, settled: State, t: State, ids: multiset<Id>)
    requires settled.hand == s.hand + ids && settled.received == s.received && settled.initialize == s.initialize
    requires settled.backends == s.backends && Grows(s, settled)
    requires Handled(settled, t, ids)
    ensures Handled(s, t, multiset{})
  {
    assert s.hand + ids - ids == s.hand - multiset{};
  }

  /** A server that names a thread becomes its home. */
  function Remember(threads: map<string, nat>, b: nat, about: Option<Thread>): map<string, nat> {
    if about.Some? && about.value.id.Some? then threads[about.value.id.value := b] else threads
  }

  function RememberCwd(cwds: map<string, string>, about: Option<Thread>): map<string, string> {
    if about.Some? && about.value.id.Some? && about.value.cwd.Some? && Absolute(about.value.cwd.value) then
      cwds[about.value.id.value := about.value.cwd.value]
    else
      cwds
  }

  lemma RememberedCwd(cwds: map<string, string>, about: Option<Thread>)
    ensures RememberCwd(RememberCwd(cwds, about), about) == RememberCwd(cwds, about)
  {
  }

  predicate Absolute(path: string) {
    |path| > 0 && path[0] == '/'
  }

  lemma TablesKeep(s: State, turns: map<string, nat>, threads: map<string, nat>, cwds: map<string, string>,
                   resumes: map<string, Message>, b: nat)
    requires Core(s)
    requires b < |s.backends| || (turns == s.activeTurns && threads == s.threads)
    requires forall t :: t in turns ==> turns[t] == b || (t in s.activeTurns && turns[t] == s.activeTurns[t])
    requires forall t :: t in threads ==> threads[t] == b || (t in s.threads && threads[t] == s.threads[t])
    ensures Core(s.(activeTurns := turns, threads := threads, threadCwds := cwds, threadResumes := resumes))
  {
    hide StateOk, ProjectsOk, OwnersOk, ReadyOk, ActivationsOk, HeldIn, QuestionsOk, OwnersKnown, LogOk;
    hide MintedBefore, QueuedOk, BackendsPlain, PendingPlain, ActivationsPlain, BatchesPlain, AnswersOwn;
  }

  predicate Opens(verb: Verb) {
    verb.ThreadStart? || verb.ThreadResume? || verb.ThreadFork?
  }

  /** What a notification says about threads is noted, and only that. */
  ghost predicate NotesThread(s: State, turns: map<string, nat>, threads: map<string, nat>,
                              cwds: map<string, string>, b: nat, m: Message)
    requires m.Call?
  {
    && turns == (if m.thread.None? then s.activeTurns
                 else if m.verb.TurnStarted? then s.activeTurns[m.thread.value := b]
                 else if m.verb.TurnCompleted? || m.verb.ThreadClosed? then s.activeTurns - {m.thread.value}
                 else s.activeTurns)
    && threads == (if !m.verb.ThreadClosed? then Remember(s.threads, b, m.about)
                   else if m.thread.Some? then s.threads - {m.thread.value}
                   else s.threads)
    && cwds == (if m.verb.ThreadClosed? then s.threadCwds else RememberCwd(s.threadCwds, m.about))
  }

  /** An opened thread is bound to its server, with the request as template if a state server opened it;
      an accepted request moves its thread to the server, or forgets it. */
  ghost predicate NotesReply(s: State, threads: map<string, nat>, cwds: map<string, string>,
                             resumes: map<string, Message>, b: nat, original: Message, m: Message)
    requires original.Call? && m.Reply?
  {
    var bound := if Opens(original.verb) then Remember(s.threads, b, m.about) else s.threads;
    && threads == (if m.error.Some? || original.thread.None? || original.verb.ThreadRead? then bound
                   else if original.verb.ThreadUnsubscribe? || original.verb.ThreadArchive? then
                     bound - {original.thread.value}
                   else bound[original.thread.value := b])
    && cwds == (if m.error.None? || Opens(original.verb) then RememberCwd(s.threadCwds, m.about) else s.threadCwds)
    && resumes == (if m.error.None? && Current(RolesOf(s), b) && Opens(original.verb) && m.about.Some?
                       && m.about.value.id.Some?
                   then s.threadResumes[m.about.value.id.value := original]
                   else s.threadResumes)
  }

  lemma NotesThreadKeeps(s: State, turns: map<string, nat>, threads: map<string, nat>, cwds: map<string, string>,
                         b: nat, m: Message)
    requires Valid(s) && b < |s.backends| && m.Call? && NotesThread(s, turns, threads, cwds, b, m)
    ensures Valid(s.(activeTurns := turns, threads := threads, threadCwds := cwds))
  {
    hide Core, RememberCwd, Valid;
    ValidCore(s);
    TablesKeep(s, turns, threads, cwds, s.threadResumes, b);
    StillValid(s, s.(activeTurns := turns, threads := threads, threadCwds := cwds));
  }

  /** A live server can be named. */
  lemma NotesReplyRests(s: State, threads: map<string, nat>, cwds: map<string, string>,
                        resumes: map<string, Message>, b: nat, original: Message, m: Message)
    requires b < |s.backends| && s.backends[b].live && original.Call? && m.Reply?
    requires NotesReply(s, threads, cwds, resumes, b, original, m)
    ensures Grows(s, s.(threads := threads, threadCwds := cwds, threadResumes := resumes))
  {
    hide RememberCwd;
  }

  lemma RememberedRests(s: State, b: nat, about: Option<Thread>)
    requires b < |s.backends| && s.backends[b].live
    ensures Grows(s, s.(threads := Remember(s.threads, b, about), threadCwds := RememberCwd(s.threadCwds, about)))
  {
    hide RememberCwd;
  }

  /** The server of a project runs. */
  lemma ProjectLives(s: State, b: nat)
    requires Core(s) && IsProject(RolesOf(s), s.backends, b)
    ensures s.backends[b].live && !Gone(s, b)
  {
    hide Balanced, Named, Known, Asking, Logged, StateOk, OwnersOk, ReadyOk, ActivationsOk, RunsThread, InitPending;
  }

  lemma NotesReplyKeeps(s: State, threads: map<string, nat>, cwds: map<string, string>,
                        resumes: map<string, Message>, b: nat, original: Message, m: Message)
    requires Valid(s) && b < |s.backends| && original.Call? && m.Reply?
    requires NotesReply(s, threads, cwds, resumes, b, original, m)
    ensures Valid(s.(threads := threads, threadCwds := cwds, threadResumes := resumes))
  {
    hide Core, RememberCwd, Valid;
    ValidCore(s);
    TablesKeep(s, s.activeTurns, threads, cwds, resumes, b);
    StillValid(s, s.(threads := threads, threadCwds := cwds, threadResumes := resumes));
  }

  lemma PlainBegins(s: State, m: Message)
    requires PlainCall(m)
    ensures Begun(s, m) == s && Owed(s, m) == IdOf(m)
  {
  }

  lemma ReplyBegins(s: State, m: Message)
    requires m.Reply?
    ensures Begun(s, m) == s && Owed(s, m) == multiset{} && s.received + multiset{} == s.received
    ensures !Homeless(m) && !PlainCall(m)
  {
  }

  lemma ReceivedFacts(s: State, m: Message)
    requires m.Call?
    ensures var t := s.(received := s.received + Owed(s, m), hand := Owed(s, m));
      Owed(t, m) == Owed(s, m) && BegunAlike(s, t, m)
  {
    hide Begun, IdOf, BegunAlike;
    BegunSame(s, s.(received := s.received + Owed(s, m), hand := Owed(s, m)), m);
  }

  ghost predicate BegunAlike(s: State, t: State, m: Message) {
    var u := Begun(t, m);
    && u.hand == t.hand && u.received == t.received && u.initialize == Begun(s, m).initialize
    && u.stdout == s.stdout && u.written == s.written && u.asked == s.asked && u.clientReady == s.clientReady
    && Rests(s, u)
  }

  lemma BegunSame(s: State, t: State, m: Message)
    requires t.initialize == s.initialize && t.stdout == s.stdout && t.written == s.written
    requires t.asked == s.asked && t.clientReady == s.clientReady && t.backends == s.backends
    requires t.threads == s.threads && t.activeTurns == s.activeTurns && t.replies == s.replies
    ensures BegunAlike(s, t, m)
  {
    hide Begun, Rests;
    BegunFields(s, m);
    BegunFields(t, m);
    SameRest(s, Begun(t, m));
  }

  lemma BegunFields(s: State, m: Message)
    ensures var t := Begun(s, m);
      && t.hand == s.hand && t.received == s.received && t.stdout == s.stdout && t.written == s.written
      && t.asked == s.asked && t.clientReady == s.clientReady && t.backends == s.backends
      && t.threads == s.threads && t.activeTurns == s.activeTurns && t.replies == s.replies
      && t.initialize == if m.Call? && m.verb.Initialize? then Some(m) else s.initialize
  {
    if m.Call? && m.verb.Initialize? {
      assert Begun(s, m) == s.(initialize := Some(m));
    } else {
      assert Begun(s, m) == s;
    }
  }

  lemma StartedFacts(s: State, m: Message)
    ensures Requested(Begun(s, m), 0, Handshake, m, ForClient(m)).clientReady == s.clientReady
    ensures Minting(Begun(s, m)).clientReady == s.clientReady
    ensures m.Call? && m.verb.Initialize? ==> Begun(s, m) == s.(initialize := Some(m))
  {
  }

  /** The request was received and parked. */
  ghost function ParkedIn(s: State, m: Message): State {
    s.(clientQueue := s.clientQueue + [m], received := s.received + IdOf(m))
  }

  lemma ParkedFacts(s: State, m: Message)
    ensures PlainCall(m) && s.hand == multiset{} ==>
      Parked(s.(received := s.received + Owed(s, m), hand := Owed(s, m)), m) == ParkedIn(s, m)
  {
  }

  lemma InitialFacts(native: bool)
    ensures var s := Initial(native); !s.clientReady && s.hand == multiset{}
  {
  }

  lemma HomelessLast(s: State, m: Message)
    requires Homeless(m) && m in s.clientQueue
    ensures HomelessParked(s)
  {
    hide Homeless;
  }

  /** Whatever fails is a request of the client that is owed a reply. */
  lemma OwedToFail(s: State, m: Message)
    requires m.Call?
    ensures m.id.Some? && !(m.verb.Initialized? && s.initialize.Some?) ==> Owed(s, m) == IdOf(m)
  {
  }

  lemma NoneHomeless()
    ensures !HomelessIn([])
  {
  }

  lemma HomelessNext(queue: seq<Message>, i: nat)
    requires i < |queue|
    ensures HomelessIn(queue[..i + 1]) <==> HomelessIn(queue[..i]) || Homeless(queue[i])
  {
    hide Homeless;
    assert queue[..i + 1] == queue[..i] + [queue[i]];
    if HomelessIn(queue[..i]) {
      var m :| m in queue[..i] && Homeless(m);
      assert m in queue[..i + 1];
    }
    if Homeless(queue[i]) {
      assert queue[i] in queue[..i + 1];
    }
  }

  lemma PrintedGroups(s: State, m: Message)
    ensures SameGroups(s, Printed(s, m)) && Printed(s, m).opening == s.opening
  {
  }

  lemma PrintedHandled(s: State, m: Message)
    ensures Handled(s, Printed(s, m), AnswerOf(m))
  {
  }

  lemma ChangePrinted(s: State, m: Message)
    requires m.Call?
    ensures Handled(s, Printed(s, m), multiset{}) && Printed(s, m) == s.(stdout := s.stdout + [m])
  {
    hide Handled;
    PrintedHandled(s, m);
    assert s.hand - multiset{} == s.hand;
  }

  lemma PrintedLast(s: State, m: Message)
    ensures LastLine(Printed(s, m), m) && Printed(s, m).clientReady == s.clientReady
  {
  }

  lemma AnsweredGrows(s: State, key: Id, response: Message)
    requires key in s.replies
    ensures var t := AnsweredTo(s, key, response);
      Grows(s, t) && t.received == s.received && t.hand == s.hand && t.initialize == s.initialize
  {
  }

  lemma SameGrowth(s: State, t: State, u: State)
    requires t.stdout == s.stdout && t.written == s.written && t.asked == s.asked && t.clientReady == s.clientReady
    requires Rests(s, t) && Grows(t, u)
    ensures Grows(s, u)
  {
    hide Rests;
    RestsMore(s, t, u);
  }

  lemma ParkedAlike(s: State, t: State)
    requires t.clientQueue == s.clientQueue
    ensures HomelessParked(t) <==> HomelessParked(s)
  {
  }

  /** What a server says reaches the client; what it asks is asked under a fresh id. */
  function Passed(s: State, b: nat, m: Message): State {
    if m.id.Some? then Printed(AskedBy(s, b, m.id.value), WithId(m, Some(Fresh(s.minted)))) else Printed(s, m)
  }

  /** The fields that passing a message on leaves alone. */
  ghost predicate SameWork(s: State, t: State) {
    && t.hand == s.hand && t.received == s.received && t.backends == s.backends && t.initialize == s.initialize
    && t.activeTurns == s.activeTurns && t.threads == s.threads && t.threadCwds == s.threadCwds
  }

  lemma AskedSame(s: State, b: nat, id: Id)
    ensures SameWork(s, AskedBy(s, b, id)) && AskedBy(s, b, id).replies == s.replies[Fresh(s.minted) := Asked(b, id)]
  {
  }

  lemma PrintedSame(s: State, m: Message)
    requires m.Call?
    ensures SameWork(s, Printed(s, m)) && Printed(s, m).replies == s.replies
  {
    assert s.hand - multiset{} == s.hand;
  }

  /** A message of a server was taken in: only this server can come back. */
  ghost predicate Heard(s: State, t: State, b: nat, m: Message) {
    && t.hand == s.hand && t.received == s.received && t.initialize == s.initialize
    && t.asked == s.asked + Questions(b, m) && Adds(s, t) && RestsBut(s, t, b)
  }

  lemma PassedHeard(s: State, noted: State, b: nat, m: Message)
    requires noted == s.(activeTurns := noted.activeTurns, threads := noted.threads, threadCwds := noted.threadCwds)
    requires m.Call? && NotesThread(s, noted.activeTurns, noted.threads, noted.threadCwds, b, m)
    ensures Heard(s, Passed(noted, b, m), b, m) && SameWork(noted, Passed(noted, b, m))
  {
    hide AskedBy, Printed, RestsBut, NotesThread;
    PassedAdds(s, noted, b, m);
    PassedRests(s, noted, b, m);
    if m.id.Some? {
      AskedSame(noted, b, m.id.value);
      PrintedSame(AskedBy(noted, b, m.id.value), WithId(m, Some(Fresh(noted.minted))));
    } else {
      PrintedSame(noted, m);
    }
  }

  lemma PassedAdds(s: State, noted: State, b: nat, m: Message)
    requires noted == s.(activeTurns := noted.activeTurns, threads := noted.threads, threadCwds := noted.threadCwds)
    requires m.Call?
    ensures Adds(s, Passed(noted, b, m)) && Passed(noted, b, m).asked == s.asked + Questions(b, m)
  {
    assert m.id.None? ==> s.asked + multiset{} == s.asked;
  }

  lemma PassedRests(s: State, noted: State, b: nat, m: Message)
    requires noted == s.(activeTurns := noted.activeTurns, threads := noted.threads, threadCwds := noted.threadCwds)
    requires m.Call? && NotesThread(s, noted.activeTurns, noted.threads, noted.threadCwds, b, m)
    ensures RestsBut(s, Passed(noted, b, m), b)
  {
    hide Passed, RestsBut, RememberCwd;
    PassedTables(noted, b, m);
    SpeakerRests(s, Passed(noted, b, m), b);
  }

  lemma PassedTables(s: State, b: nat, m: Message)
    requires m.Call?
    ensures var t := Passed(s, b, m);
      && t.backends == s.backends && t.threads == s.threads && t.activeTurns == s.activeTurns
      && AsksOnly(s.replies, t.replies, b)
  {
    hide AskedBy, Printed;
    if m.id.Some? {
      AskedSame(s, b, m.id.value);
      PrintedSame(AskedBy(s, b, m.id.value), WithId(m, Some(Fresh(s.minted))));
    } else {
      PrintedSame(s, m);
    }
  }

  lemma RepliedHeard(s: State, t: State, b: nat, m: Message)
    requires Handled(s, t, multiset{}) && m.Reply?
    ensures Heard(s, t, b, m)
  {
    hide Gone;
    assert s.hand - multiset{} == s.hand && s.asked + multiset{} == s.asked;
  }

  /** The message names a thread that lives in a project server, and is not split. */
  predicate Settles(s: State, m: Message)
    requires m.Call?
  {
    && m.thread.Some? && m.thread.value in s.threads && s.threads[m.thread.value] < |s.backends|
    && !Current(RolesOf(s), s.threads[m.thread.value])
    && (ProjectRead(m.verb) || (SharedState(m.verb) && !m.verb.ThreadStart?) || m.cwds.None? || |m.cwds.value| <= 1)
  }

  /** A request for a new execution that names no place for it. */
  predicate Homeless(m: Message) {
    && m.Call? && (m.verb.ThreadStart? || m.verb.CommandExec?) && m.thread.None? && RequestCwd(m).None?
    && (m.cwds.None? || |m.cwds.value| <= 1)
  }

  ghost predicate HomelessParked(s: State) {
    HomelessIn(s.clientQueue)
  }

  ghost predicate HomelessIn(queue: seq<Message>) {
    exists m :: m in queue && Homeless(m)
  }

  /** The reply is that of the first server to the client's `initialize`, and accepts it. */
  predicate Accepts(s: State, m: Message) {
    && m.Reply? && m.error.None? && m.id.Some? && m.id.value in s.pending
    && Initializes(s.pending[m.id.value].waiting)
  }

  function RequestCwd(m: Message): Option<string>
    requires m.Call?
  {
    var cwd := if m.cwd.Some? then m.cwd
               else if m.cwds.Some? && |m.cwds.value| > 0 then m.cwds.value[0]
               else None;
    if cwd == Some("") then None else cwd
  }

  /** What a message of the client is owed: an accepted `initialized` gets no reply in any case. */
  function Owed(s: State, m: Message): multiset<Id> {
    if m.Call? && !(m.verb.Initialized? && s.initialize.Some?) then IdOf(m) else multiset{}
  }

  /** A message was taken in. */
  ghost predicate Handled(s: State, t: State, ids: multiset<Id>) {
    && t.hand == s.hand - ids && t.received == s.received && |s.backends| <= |t.backends|
    && t.initialize == s.initialize && Grows(s, t)
  }

  /** An `initialize` of the client counts from the start, whatever comes of it. */
  function Begun(s: State, m: Message): State {
    if m.Call? && m.verb.Initialize? then s.(initialize := Some(m)) else s
  }

  /** The request of a server that this message is. */
  ghost function Questions(b: nat, m: Message): multiset<(nat, Id)> {
    if m.Call? && m.id.Some? then multiset{(b, m.id.value)} else multiset{}
  }

  lemma HandledNothing(s: State)
    ensures Handled(s, s, multiset{})
  {
    assert s.hand - multiset{} == s.hand;
  }

  lemma ServedHandled(s: State, t: State, ids: multiset<Id>)
    requires Served(s, t, ids)
    ensures Handled(s, t, ids)
  {
  }

  lemma ParkedHandled(s: State, m: Message)
    requires Valid(s) && Core(Parked(s, m))
    ensures Handled(s, Parked(s, m), IdOf(m)) && Valid(Parked(s, m))
  {
    hide Core, Batching;
  }

  lemma StartKeeps(s: State, m: Message)
    requires Valid(s) && m.Call? && m.verb.Initialize? && FromClient(m) && IdOf(m) <= s.hand
    ensures var t := s.(initialize := Some(m));
            Valid(t) && |t.backends| > 0 && (t.backends[0].live ==> MayRequest(t, 0, Handshake, m, ForClient(m)))
  {
    hide Batching, ProjectsOk, OwnersOk, ReadyOk, ActivationsOk, HeldIn, QuestionsOk, OwnersKnown, LogOk, Within;
    hide MintedBefore, QueuedOk, BackendsPlain, PendingPlain, ActivationsPlain, BatchesPlain, AnswersOwn;
  }

  lemma StartHandled(first: State, m: Message)
    requires Valid(first)
    ensures var t := Requested(first, 0, Handshake, m, ForClient(m));
            Handled(first, t, IdOf(m)) && (Core(t) ==> Valid(t))
    ensures Handled(first, Minting(first), multiset{}) && (Core(Minting(first)) ==> Valid(Minting(first)))
  {
    hide Requested, Minting, Core, Batching, Handled, Moved;
    RequestedMoved(first, 0, Handshake, m, ForClient(m));
    MintingMoved(first);
    var t, u := Requested(first, 0, Handshake, m, ForClient(m)), Minting(first);
    MovedFacts(first, t, IdOf(m));
    MovedFacts(first, u, multiset{});
    ServedHandled(first, t, IdOf(m));
    ServedHandled(first, u, multiset{});
  }

  /** The split requests are untouched. */
  lemma StillValid(s: State, t: State)
    requires Valid(s) && Core(t) && t.opening == s.opening
    requires t.batches == s.batches && t.batchRequests == s.batchRequests && t.parts == s.parts
    ensures Valid(t)
  {
    hide Core, Batching;
  }

  lemma HostKnown(s: State)
    requires Valid(s)
    ensures s.host.Some? ==> s.host.value < |s.backends|
  {
    hide Balanced, Named, Known, Asking, Logged, Batching, ProjectsOk, OwnersOk, ReadyOk, ActivationsOk;
  }

  lemma KnownProject(s: State, root: string)
    requires Valid(s) && root in s.projects
    ensures s.projects[root] < |s.backends| && !Gone(s, s.projects[root])
  {
    hide Balanced, Named, Known, Asking, Logged, Batching, StateOk, OwnersOk, ReadyOk, ActivationsOk;
  }

  lemma AskerKnown(s: State, id: Id)
    requires Core(s) && id in s.replies
    ensures s.replies[id].owner < |s.backends|
  {
    hide Balanced, Named, Known, Routed, Logged;
  }

  function PartRequest(original: Message, id: Id, cwd: Option<string>): Message
    requires original.Call?
  {
    Call(Some(id), original.verb, original.thread, original.cwd, Some([cwd]), original.about, original.body)
  }

  lemma IssuedServed(s: State, group: Id)
    ensures var t := Issued(s, group);
            t.hand - multiset{Fresh(s.minted)} == s.hand && t.received == s.received && t.initialize == s.initialize
            && t.opening == s.opening && t.backends == s.backends && Grows(s, t)
  {
    assert s.hand + multiset{Fresh(s.minted)} - multiset{Fresh(s.minted)} == s.hand;
  }

  lemma IssuedBack(s: State, issued: State, t: State, id: Id)
    requires issued.hand - multiset{id} == s.hand && issued.received == s.received
    requires issued.initialize == s.initialize && issued.opening == s.opening && issued.backends == s.backends
    requires Grows(s, issued)
    requires Served(issued, t, multiset{id})
    ensures Served(s, t, multiset{})
  {
    assert s.hand - multiset{} == s.hand;
  }

  lemma MovedFacts(s: State, t: State, ids: multiset<Id>)
    requires Moved(s, t, ids)
    ensures Served(s, t, ids)
    ensures t.batches == s.batches && t.batchRequests == s.batchRequests && t.parts == s.parts && t.stdout == s.stdout
    ensures t.hand == s.hand - ids && t.received == s.received && t.initialize == s.initialize
    ensures t.opening == s.opening && |s.backends| <= |t.backends| && Grows(s, t)
    ensures s.hand - multiset{} == s.hand
  {
  }

  lemma MovedMore(s: State, t: State, u: State, ids: multiset<Id>)
    requires Moved(s, t, multiset{}) && Moved(t, u, ids)
    ensures Moved(s, u, ids)
  {
    assert s.hand - multiset{} == s.hand;
  }

  /** While other parts are to be issued, one open part cannot complete the split request. */
  lemma StillOpen(batches: map<Id, Batch>, batchRequests: map<Id, Id>, parts: map<Id, seq<Message>>,
                  group: Id, left: nat, id: Id)
    requires Batching(batches, batchRequests, parts, Some(group), left) && group in batches
    requires id in batchRequests && batchRequests[id] == group
    ensures batches[group].remaining >= 1 + left
  {
    hide Join, LastError;
    assert id in Open(batchRequests, group);
    assert BatchOk(batches[group], Open(batchRequests, group), left, parts[group]);
  }

  lemma PartResponded(s: State, t: State, response: Message, group: Id)
    requires Joins(s, response) && t == Responded(s, response) && IsPart(s, response)
    requires s.batchRequests[response.id.value] == group
    ensures s.batches[group].remaining > 1 ==> group in t.batches
  {
    hide Join, LastError;
  }

  lemma RespondedCore(s: State, response: Message)
    requires Core(s) && Joins(s, response)
    requires Balanced(Responded(s, response)) && Named(Responded(s, response))
    ensures Core(Responded(s, response))
  {
    hide Core, Balanced, Named, Join, LastError, PartIn, Completed, Printed;
    var t := Responded(s, response);
    RespondedShape(s, response);
    RestSame(s, t);
  }

  lemma RespondedShape(s: State, response: Message)
    requires Joins(s, response)
    ensures s.stdout <= Responded(s, response).stdout
    ensures var t := Responded(s, response);
      t == s.(hand := s.hand - AnswerOf(response), stdout := t.stdout, batches := t.batches,
              batchRequests := t.batchRequests, parts := t.parts)
      || (IsPart(s, response) && t == s.(hand := s.hand - IdOf(response), stdout := t.stdout, batches := t.batches,
              batchRequests := t.batchRequests, parts := t.parts))
  {
    hide Join, LastError, PartsWith, Next, BatchReply;
    if IsPart(s, response) && s.batches[s.batchRequests[response.id.value]].remaining > 1 {
      assert Responded(s, response) == PartIn(s, response);
    } else if IsPart(s, response) {
      assert Responded(s, response) == Completed(s, response);
    }
  }

  lemma RespondedServed(s: State, response: Message)
    requires Joins(s, response) && response.Reply?
    ensures Served(s, Responded(s, response), IdOf(response))
  {
    hide Join, LastError, PartIn, Completed, Printed, Responded;
    RespondedShape(s, response);
  }

  lemma SplitServed(s: State, original: Message, count: nat)
    ensures Served(s, Split(s, original, count), IdOf(original))
  {
  }

  lemma ServedNothing(s: State)
    ensures Served(s, s, multiset{})
  {
    assert s.hand - multiset{} == s.hand;
  }

  lemma ServedLater(s: State, t: State, u: State, ids: multiset<Id>)
    requires Served(s, t, ids) && Served(t, u, multiset{})
    ensures Served(s, u, ids)
  {
    assert s.hand - ids - multiset{} == s.hand - ids;
  }

  lemma AllIssued(s: State, group: Id)
    requires Core(s) && s.opening.None? && Batching(s.batches, s.batchRequests, s.parts, Some(group), 0)
    ensures Valid(s)
  {
    hide Core, BatchOk, Open;
  }

  /** The `thread/resume` that reopens a thread with the settings it was started with. */
  function ResumeRequest(thread: string, template: Option<Message>): Message {
    if template.Some? && template.value.Call? then
      Call(None, ThreadResume, Some(thread), template.value.cwd, None, None, template.value.body)
    else
      Call(None, ThreadResume, Some(thread), None, None, None, "")
  }

  /** The request waits for a project server, or for the resumption of its thread there. */
  ghost predicate Activating(s: State, b: nat, original: Message) {
    && IsProject(RolesOf(s), s.backends, b)
    && ((b in s.activations && exists a :: a in s.activations[b] && a.original == original)
        || exists id :: id in s.pending && s.pending[id] == Pending(b, ForActivate(original)))
  }

  lemma WaitingAt(s: State, b: nat, a: Activation)
    requires IsProject(RolesOf(s), s.backends, b)
    ensures Activating(Waits(s, b, a), b, a.original)
  {
    var t := Waits(s, b, a);
    assert a in t.activations[b];
  }

  lemma ResumingAt(s: State, b: nat, a: Activation)
    requires IsProject(RolesOf(s), s.backends, b)
    ensures Activating(Resumed(s, b, a), b, a.original)
  {
    var t := Resumed(s, b, a);
    assert t.pending[Fresh(s.minted)] == Pending(b, ForActivate(a.original));
  }

  function Resumed(s: State, b: nat, a: Activation): State {
    Requested(s, b, Resume, a.resume, ForActivate(a.original))
  }

  lemma MayResume(s: State, b: nat, a: Activation)
    requires Core(s) && IsProject(RolesOf(s), s.backends, b) && s.backends[b].ready && s.initialize.Some?
    requires PlainActivation(a) && IdOf(a.original) <= s.hand
    ensures s.backends[b].live && MayRequest(s, b, Resume, a.resume, ForActivate(a.original))
  {
    hide Balanced, Named, Known, Asking, Logged, StateOk, OwnersOk, ReadyOk, ActivationsOk, InitPending;
  }

  lemma MayLookUp(s: State, b: nat, lookup: Message, original: Message)
    requires Core(s) && s.common == Some(b) && b < |s.backends| && s.initialize.Some?
    requires lookup.Call? && lookup.verb.ThreadRead?
    requires PlainCall(original) && FromClient(original) && IdOf(original) <= s.hand
    ensures MayRequest(s, b, Lookup, lookup, ForLocate(original))
  {
    hide Balanced, Named, Known, Asking, Logged, ProjectsOk, OwnersOk, ReadyOk, ActivationsOk;
  }

  lemma KnownThread(s: State, thread: string)
    requires Valid(s) && thread in s.threads
    ensures s.threads[thread] < |s.backends| && !Gone(s, s.threads[thread]) && Core(s)
    ensures Batching(s.batches, s.batchRequests, s.parts, None, 0) && s.opening.None?
  {
    hide Balanced, Named, Routed, Asking, Logged, Batching;
  }

  lemma ValidCore(s: State)
    requires Valid(s)
    ensures Core(s) && s.opening.None? && Batching(s.batches, s.batchRequests, s.parts, None, 0)
  {
    hide Core, Batching;
  }

  lemma MovedServed(s: State, t: State, ids: multiset<Id>)
    requires Moved(s, t, ids)
    ensures Served(s, t, ids)
  {
  }

  lemma ServedFacts(s: State, t: State, ids: multiset<Id>)
    requires Served(s, t, ids)
    ensures t.hand == s.hand - ids && t.received == s.received && t.initialize == s.initialize
    ensures t.opening == s.opening && |s.backends| <= |t.backends| && Grows(s, t)
    ensures s.hand - multiset{} == s.hand
  {
  }

  lemma ServedMore(s: State, t: State, u: State, first: multiset<Id>, later: multiset<Id>)
    requires Served(s, t, first) && Served(t, u, later)
    ensures Served(s, u, first + later) && (first == multiset{} ==> Served(s, u, later))
  {
    assert s.hand - first - later == s.hand - (first + later);
    assert multiset{} + later == later;
  }

  lemma ClosedServed(s: State, b: nat)
    requires b < |s.backends| && s.opening.None?
    ensures forall t :: Replied(Shut(s, b), t) ==> Served(s, t, multiset{})
  {
    assert s.hand - multiset{} == s.hand;
  }

  lemma WaitsMoved(s: State, b: nat, a: Activation)
    ensures Moved(s, Waits(s, b, a), IdOf(a.original))
  {
  }

  lemma SameHand(s: State, t: State)
    requires Replied(s, t)
    ensures t.hand == s.hand && t.pending == s.pending
  {
  }

  ghost predicate BatchAt(s: State, group: Id) {
    && group in s.batches && group in s.parts && s.batches[group].remaining > 0
    && s.batches[group].error == LastError(s.parts[group]) && Join(s.parts[group]) == Some(s.batches[group].result)
  }

  /** A server was started and sent the client's own `initialize`. */
  function Started(s: State, workspace: Option<string>): State
    requires s.initialize.Some?
  {
    Requested(Spawned(s, workspace), |s.backends|, Handshake, s.initialize.value, ForInitialize)
  }

  function NotStarted(s: State, workspace: Option<string>): State {
    Abandoned(Minting(Spawned(s, workspace)))
  }

  /** The shared server is there: it was, or it was just started. */
  function WithCommon(s: State): State
    requires s.initialize.Some?
  {
    if s.common.Some? then s else AsCommon(Started(s, None), |s.backends|)
  }

  /** The shared server took the message. */
  ghost predicate SharedTook(s: State, t: State, m: Message)
    requires s.initialize.Some?
  {
    var u := WithCommon(s);
    u.common.Some? && u.common.value < |u.backends| && t == Dispatched(u, u.common.value, m)
  }

  /** The server of a project is there: it was, or it was just started. */
  function WithProject(s: State, root: string): State
    requires s.initialize.Some?
  {
    if root in s.projects then s else AsProject(Started(s, Some(root)), root, |s.backends|)
  }

  ghost predicate ProjectUp(s: State, t: State, root: string, b: nat)
    requires s.initialize.Some?
  {
    t == WithProject(s, root) && root in t.projects && t.projects[root] == b
  }

  /** The server of the project took the message. */
  ghost predicate ProjectTook(s: State, t: State, root: string, m: Message)
    requires s.initialize.Some?
  {
    var u := WithProject(s, root);
    root in u.projects && u.projects[root] < |u.backends| && t == Dispatched(u, u.projects[root], m)
  }

  lemma CommonTook(s: State, u: State, b: nat, m: Message)
    requires s.initialize.Some? && u == WithCommon(s) && u.common == Some(b) && b < |u.backends|
    ensures SharedTook(s, Dispatched(u, b, m), m)
  {
  }

  lemma RootTook(s: State, u: State, b: nat, m: Message)
    requires s.initialize.Some? && b < |u.backends| && exists root :: ProjectUp(s, u, root, b)
    ensures exists root :: ProjectTook(s, Dispatched(u, b, m), root, m)
  {
    hide WithProject, Dispatched;
    var root :| ProjectUp(s, u, root, b);
    assert ProjectTook(s, Dispatched(u, b, m), root, m);
  }

  /** A located request moved on to its project, or was refused. */
  ghost predicate Relocated(s: State, t: State, original: Message, m: Message) {
    || LastLine(t, RpcError(original, "request failed"))
    || (original.Call? && original.verb.Execution? && exists b :: Activating(t, b, original))
    || (original.Call? && !original.verb.Execution? && s.initialize.Some?
        && exists root :: ProjectTook(s.(threadCwds := RememberCwd(s.threadCwds, m.about)), t, root, original))
  }

  predicate LastLine(s: State, m: Message) {
    s.stdout != [] && s.stdout[|s.stdout| - 1] == m
  }

  lemma NotStartedKeeps(s: State, workspace: Option<string>)
    requires Core(s) && s.opening.None? && Core(Minting(Spawned(s, workspace)))
    ensures Core(NotStarted(s, workspace))
  {
    hide Core;
    AbandonedKeeps(s, Minting(Spawned(s, workspace)));
  }

  /** `ids` left the hand for some place, and no reply was given. */
  ghost predicate Moved(s: State, t: State, ids: multiset<Id>) {
    && Served(s, t, ids)
    && t.batches == s.batches && t.batchRequests == s.batchRequests && t.parts == s.parts && t.stdout == s.stdout
  }

  /** `ids` left the hand, possibly for a reply. */
  ghost predicate Served(s: State, t: State, ids: multiset<Id>) {
    && t.hand == s.hand - ids && t.received == s.received && t.initialize == s.initialize
    && t.opening == s.opening && |s.backends| <= |t.backends| && Grows(s, t)
  }

  /** Nothing written is taken back, no server has asked anything more, the client stays ready, and what
      is gone stays gone. */
  ghost predicate Grows(s: State, t: State) {
    Adds(s, t) && t.asked == s.asked && Rests(s, t)
  }

  ghost predicate Adds(s: State, t: State) {
    s.stdout <= t.stdout && s.written <= t.written && (s.clientReady ==> t.clientReady)
  }

  lemma GrowsMore(s: State, t: State, u: State)
    requires Grows(s, t) && Grows(t, u)
    ensures Grows(s, u)
  {
    hide Rests;
    RestsMore(s, t, u);
  }

  lemma MovedNothing(s: State)
    ensures Moved(s, s, multiset{})
  {
    assert s.hand - multiset{} == s.hand;
  }

  function Delivered(s: State, b: nat, message: Message): State {
    if message.id.Some? then Requested(s, b, Via.Dispatch, message, ForClient(message))
    else Sent(s, Line(b, Via.Dispatch, message))
  }

  /** A message goes to its server at once, or waits there for the handshake. */
  function Dispatched(s: State, b: nat, message: Message): State
    requires b < |s.backends|
  {
    if s.backends[b].ready then Delivered(s, b, message) else QueuedAt(s, b, message)
  }

  lemma DispatchedMoved(s: State, b: nat, message: Message)
    requires b < |s.backends| && !Gone(s, b)
    ensures Moved(s, Dispatched(s, b, message), IdOf(message))
    ensures Moved(s, s, multiset{}) && Moved(s, Minting(s), multiset{})
  {
    hide Moved, Requested, QueuedAt, Sent, Minting, Gone;
    MovedNothing(s);
    MintingMoved(s);
    RequestedMoved(s, b, Via.Dispatch, message, ForClient(message));
    QueuedMoved(s, b, message);
    if message.id.None? {
      SentMoved(s, Line(b, Via.Dispatch, message));
    }
  }

  lemma RequestedMoved(s: State, b: nat, via: Via, message: Message, waiting: Waiting)
    ensures Moved(s, Requested(s, b, via, message, waiting), OriginalOf(waiting))
  {
  }

  lemma QueuedMoved(s: State, b: nat, m: Message)
    requires b < |s.backends| && !Gone(s, b)
    ensures Moved(s, QueuedAt(s, b, m), IdOf(m))
  {
    hide Rests, Gone;
    QueuedRests(s, b, m);
  }

  lemma MintingMoved(s: State)
    ensures Moved(s, Minting(s), multiset{})
  {
    assert s.hand - multiset{} == s.hand;
  }

  lemma SentMoved(s: State, line: Line)
    ensures Moved(s, Sent(s, line), multiset{})
  {
    assert s.hand - multiset{} == s.hand;
  }

  lemma MovedValid(s: State, t: State, ids: multiset<Id>)
    requires Valid(s) && Core(t) && Moved(s, t, ids)
    ensures Valid(t)
  {
    hide Core, Batching;
  }

  lemma NotStartedMoved(s: State, workspace: Option<string>)
    requires s.opening.None?
    ensures Moved(s, NotStarted(s, workspace), multiset{})
  {
    assert s.hand - multiset{} == s.hand;
  }

  lemma StartedCommon(s: State)
    requires Core(s) && s.opening.None? && s.initialize.Some? && Core(Started(s, None))
    requires s.common.None?
    ensures var t := AsCommon(Started(s, None), |s.backends|);
            Core(t) && Moved(s, t, multiset{}) && |t.backends| == |s.backends| + 1
  {
    hide Core;
    assert s.hand - multiset{} == s.hand;
    SomeServer(s);
    AsCommonKeeps(Started(s, None), |s.backends|);
  }

  lemma StartedProject(s: State, root: string)
    requires Core(s) && s.opening.None? && s.initialize.Some? && Core(Started(s, Some(root))) && root !in s.projects
    ensures var t := AsProject(Started(s, Some(root)), root, |s.backends|); Core(t) && Moved(s, t, multiset{})
  {
    hide Core;
    assert s.hand - multiset{} == s.hand;
    var t := Started(s, Some(root));
    assert t.pending[Fresh(s.minted)] == Pending(|s.backends|, ForInitialize);
    AsProjectKeeps(t, root, |s.backends|);
  }

  /** An error reply leads to nothing but progress of its split request and error replies. */
  lemma RespondedErrors(s: State, response: Message)
    requires Joins(s, response) && response.Reply? && response.error.Some?
    ensures Replied(s.(hand := s.hand - IdOf(response)), Responded(s, response))
  {
    hide Join, PartIn, Completed, LastError, PartsWith, Printed, Replied;
    if !IsPart(s, response) {
      OneError(s, response);
    } else if s.batches[s.batchRequests[response.id.value]].remaining > 1 {
      NoErrors(s, response);
    } else {
      BatchError(s, response);
    }
  }

  lemma OneError(s: State, m: Message)
    requires m.Reply? && m.error.Some?
    ensures Replied(s.(hand := s.hand - IdOf(m)), Printed(s, m))
  {
  }

  lemma NoErrors(s: State, response: Message)
    requires IsPart(s, response) && Joins(s, response) && s.batches[s.batchRequests[response.id.value]].remaining > 1
    ensures Replied(s.(hand := s.hand - IdOf(response)), PartIn(s, response))
  {
    hide Join, LastError;
  }

  lemma BatchError(s: State, response: Message)
    requires IsPart(s, response) && Joins(s, response) && response.Reply? && response.error.Some?
    ensures Replied(s.(hand := s.hand - IdOf(response)), Completed(s, response))
  {
    hide Join, LastError;
    LastErrorIs(s.parts[s.batchRequests[response.id.value]], response);
  }

  lemma ShutInSteps(first: State, second: State, third: State, last: State, b: nat)
    requires b < |first.backends|
    requires Replied(Unlinked(first, b).(pending := first.pending - OwnedBy(first.pending, b)), second)
    requires Replied(second.(activations := second.activations - {b}), third)
    requires b < |third.backends| && Replied(Drained(third, b), last)
    ensures Replied(Shut(first, b), last)
  {
    hide Replied;
    var u := Unlinked(first, b).(pending := first.pending - OwnedBy(first.pending, b));
    RepliedWaiters(u, second, third, b);
    RepliedQueue(u.(activations := u.activations - {b}), third, last, b);
    assert Drained(u.(activations := u.activations - {b}), b) == Shut(first, b);
  }

  lemma ShutIdle(s: State, b: nat)
    requires b < |s.backends| && Idle(s, b)
    ensures Unlinked(s, b) == Shut(s, b)
  {
    hide DroppedWith, Others, AskedFrom;
    assert s.pending - OwnedBy(s.pending, b) == s.pending && s.activations - {b} == s.activations;
  }

  lemma AfterShut(s: State, t: State, b: nat)
    requires Core(s) && b < |s.backends| && (s.opening.None? || s.opening == Some(b)) && Replied(Shut(s, b), t)
    requires Balanced(t) && Named(t) && Batching(t.batches, t.batchRequests, t.parts, None, 0)
    ensures Valid(t)
  {
    hide Balanced, Named, Batching, OnlyErrors;
    hide StateOk, ProjectsOk, OwnersOk, ReadyOk, ActivationsOk, QuestionsOk, OwnersKnown, LogOk, Within;
    ShutKeeps(s, b);
  }

  /** Nothing waits for this server. */
  predicate Idle(s: State, b: nat)
    requires b < |s.backends|
  {
    OwnedBy(s.pending, b) == {} && b !in s.activations && s.backends[b].queue == []
  }

  lemma LastErrorIs(replies: seq<Message>, response: Message)
    requires response.Reply? && response.error.Some?
    ensures LastError(replies + [response]) == response.error
  {
  }

  lemma MayGreet(s: State, workspace: Option<string>)
    requires Core(s) && s.initialize.Some?
    ensures var t := Spawned(s, workspace);
            MayRequest(t, |s.backends|, Handshake, s.initialize.value, ForInitialize)
  {
    hide Balanced, Named, Routed, Asking, Logged;
  }

  lemma CommonLives(s: State)
    requires Core(s)
    ensures s.common.Some? ==> s.common.value < |s.backends| && s.backends[s.common.value].live
  {
    hide Balanced, Named, Known, Asking, Logged, ProjectsOk, OwnersOk, ReadyOk, ActivationsOk;
  }

  lemma SomeServer(s: State)
    requires Core(s)
    ensures |s.backends| > 0
  {
    hide Balanced, Named, Known, Asking, Logged, ProjectsOk, OwnersOk, ReadyOk, ActivationsOk;
  }

  lemma ProjectApart(s: State, root: string)
    requires Core(s) && root in s.projects
    ensures IsProject(RolesOf(s), s.backends, s.projects[root]) && !Current(RolesOf(s), s.projects[root])
  {
    hide Balanced, Named, Known, Asking, Logged, OwnersOk, ReadyOk, ActivationsOk, RunsThread;
  }

  lemma OpenPart(batches: map<Id, Batch>, batchRequests: map<Id, Id>, parts: map<Id, seq<Message>>,
                 issuing: Option<Id>, left: nat, id: Id)
    requires Batching(batches, batchRequests, parts, issuing, left) && id in batchRequests
    ensures var group := batchRequests[id];
            && group in batches && group in parts && batches[group].remaining > 0
            && batches[group].error == LastError(parts[group]) && Join(parts[group]) == Some(batches[group].result)
  {
    hide Open, Join, LastError;
  }

  lemma JoinNext(replies: seq<Message>, response: Message)
    requires response.Reply? && Join(replies).Some?
    ensures LastError(replies + [response]) == if response.error.Some? then response.error else LastError(replies)
    ensures Join(replies + [response]) ==
      if response.result.None? then Join(replies)
      else if Clash(Join(replies).value, response.result.value) then None
      else Some(AddPart(Join(replies).value, response.result.value))
  {
    assert (replies + [response])[..|replies|] == replies;
  }

  lemma MayDispatch(s: State, b: nat, message: Message)
    requires Core(s) && b < |s.backends| && s.backends[b].ready && s.backends[b].live && s.initialize.Some?
    requires PlainCall(message) && IdOf(message) <= s.hand
    requires RunsThread(message) ==> !Current(RolesOf(s), b)
    ensures MaySend(s.backends, Line(b, Via.Dispatch, message))
    ensures MayRequest(s, b, Via.Dispatch, message, ForClient(message))
  {
    hide RunsThread, Balanced, Named, Known, Asking, Logged, StateOk, ProjectsOk, OwnersOk, ActivationsOk;
    assert Attached(RolesOf(s), s.backends, b);
  }
}
