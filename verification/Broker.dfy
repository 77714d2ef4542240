/** The broker of crates/codex-start-host/src/adapter_broker.rs: one client connection
    multiplexed over many app-server processes, one event at a time. A write to a server,
    a directory lookup, an attachment copy and a timer may come out either way (`*`). */
module Broker {
  import opened Messages
  import opened Options
  import opened BatchJoin
  import opened Ledger
  import opened BrokerState
  import opened BrokerSteps
  import opened BrokerClosing
  import opened BrokerBatches
  import opened BrokerGone
  import opened BrokerFacts
  import opened BrokerRuns

  class Broker {
    /** The fields of the broker, as one record so that a step can be named as a function of them. */
    var s: State

    // Output and requests.

    method Output(m: Message)
      requires Balanced(s) && Named(s) && AnswerOf(m) <= s.hand && (m.Reply? ==> FromClient(m))
      modifies this
      ensures s == Printed(old(s), m)
      ensures Balanced(s) && Named(s) && (Core(old(s)) ==> Core(s))
    {
      hide Balanced, Named, Core;
      PrintedKeeps(s, m);
      s := s.(stdout := s.stdout + [m], hand := s.hand - AnswerOf(m));
    }

    method Send(b: nat, via: Via, message: Message) returns (ok: bool)
      requires b < |s.backends|
      modifies this
      ensures ok ==> old(s).backends[b].live && s == Sent(old(s), Line(b, via, message))
      ensures !ok ==> s == old(s)
    {
      ok := *;
      ok := ok && s.backends[b].live;
      if ok {
        s := s.(written := s.written + [Line(b, via, message)]);
      }
    }

    method Request(b: nat, via: Via, message: Message, waiting: Waiting) returns (ok: bool)
      requires Core(s) && b < |s.backends|
      requires s.backends[b].live ==> MayRequest(s, b, via, message, waiting)
      modifies this
      ensures Core(s)
      ensures ok ==> old(s).backends[b].live && s == Requested(old(s), b, via, message, waiting)
      ensures !ok ==> s == Minting(old(s))
    {
      hide Core, MayRequest;
      ghost var was := s;
      var id := Fresh(s.minted);
      MintingKeeps(s);
      s := s.(minted := s.minted + 1, pending := s.pending[id := Pending(b, waiting)]);
      ok := Send(b, via, WithId(message, Some(id)));
      if ok {
        s := s.(hand := s.hand - OriginalOf(waiting));
        RequestedKeeps(was, b, via, message, waiting);
      } else {
        s := s.(pending := s.pending - {id});
        assert s.pending == was.pending;
      }
    }

    method Dispatch(b: nat, message: Message) returns (ok: bool)
      requires Core(s) && s.opening.None? && b < |s.backends| && s.initialize.Some?
      requires PlainCall(message) && IdOf(message) <= s.hand
      requires !Gone(s, b) && (RunsThread(message) ==> !Current(RolesOf(s), b))
      modifies this
      ensures Core(s)
      ensures if ok then s == Dispatched(old(s), b, message) else s == old(s) || s == Minting(old(s))
      ensures Moved(old(s), s, if ok then IdOf(message) else multiset{})
    {
      hide Core, Moved, Requested, Gone;
      DispatchedMoved(s, b, message);
      if !s.backends[b].ready {
        QueuedKeeps(s, b, message);
        s := s.(backends := s.backends[b := s.backends[b].(queue := s.backends[b].queue + [message])],
                hand := s.hand - IdOf(message));
        return true;
      }
      var copied: bool := *;
      if copied {
        ok := Deliver(b, message);
      } else {
        ok := false;
      }
    }

    /** The end of `dispatch`: a request waits for its reply, a notification is just written. */
    method Deliver(b: nat, message: Message) returns (ok: bool)
      requires Core(s) && b < |s.backends| && s.backends[b].ready && s.initialize.Some?
      requires PlainCall(message) && IdOf(message) <= s.hand
      requires RunsThread(message) ==> !Current(RolesOf(s), b)
      modifies this
      ensures Core(s)
      ensures if ok then s == Delivered(old(s), b, message) else s == old(s) || s == Minting(old(s))
    {
      hide Core, Requested, MayRequest, MaySend, RunsThread;
      if s.backends[b].live {
        MayDispatch(s, b, message);
      }
      if message.id.Some? {
        ok := Request(b, Via.Dispatch, message, ForClient(message));
      } else {
        if s.backends[b].live {
          SentKeeps(s, Line(b, Via.Dispatch, message));
        }
        ok := Send(b, Via.Dispatch, message);
      }
    }

    // Servers.

    method Spawn(workspace: Option<string>) returns (ok: bool, b: nat)
      requires Core(s) && s.opening.None? && s.initialize.Some?
      modifies this
      ensures Core(s) && b == |old(s).backends|
      ensures s == if ok then Started(old(s), workspace) else NotStarted(old(s), workspace)
    {
      hide Core, MayRequest, Requested, Minting;
      ghost var was := s;
      b := |s.backends|;
      MayGreet(s, workspace);
      SpawnedKeeps(s, workspace);
      s := s.(backends := s.backends + [Backend(true, false, [], workspace)], opening := Some(b));
      ok := Request(b, Handshake, s.initialize.value, ForInitialize);
      if !ok {
        NotStartedKeeps(was, workspace);
        s := s.(opening := None);
      }
    }

    method Common() returns (ok: bool, b: nat)
      requires Core(s) && s.opening.None? && s.initialize.Some?
      modifies this
      ensures Core(s) && Moved(old(s), s, multiset{})
      ensures ok ==> s == WithCommon(old(s)) && s.common == Some(b) && b < |s.backends|
      ensures !ok ==> old(s).common.None? && s == NotStarted(old(s), None)
    {
      hide Core, Started, NotStarted, Moved;
      CommonLives(s);
      ghost var was := s;
      if s.common.Some? && s.backends[s.common.value].live {
        MovedNothing(s);
        return true, s.common.value;
      }
      ok, b := Spawn(None);
      if ok {
        StartedCommon(was);
        s := s.(common := Some(b), opening := None);
      } else {
        NotStartedMoved(was, None);
      }
    }

    /** The directory lookup may fail or find any project root. */
    method Project() returns (ok: bool, b: nat)
      requires Core(s) && s.opening.None? && s.initialize.Some?
      modifies this
      ensures Core(s) && Moved(old(s), s, multiset{})
      ensures ok ==> IsProject(RolesOf(s), s.backends, b) && !Current(RolesOf(s), b)
      ensures ok ==> exists root :: ProjectUp(old(s), s, root, b)
    {
      hide Core, Started, NotStarted, Moved, Current, IsProject;
      ghost var was := s;
      var found: bool, root: string := *, *;
      if !found {
        MovedNothing(s);
        return false, 0;
      }
      if root in s.projects {
        MovedNothing(s);
        ProjectApart(s, root);
        assert ProjectUp(s, s, root, s.projects[root]);
        return true, s.projects[root];
      }
      ok, b := Spawn(Some(root));
      if ok {
        StartedProject(was, root);
        s := s.(projects := s.projects[root := b], opening := None);
        ProjectApart(s, root);
        assert ProjectUp(was, s, root, b);
      } else {
        NotStartedMoved(was, Some(root));
      }
    }

    // Replies to the client.

    method Respond(response: Message, ghost issuing: Option<Id>, ghost left: nat) returns (ok: bool)
      requires Balanced(s) && Named(s) && response.Reply? && IdOf(response) <= s.hand
      requires Batching(s.batches, s.batchRequests, s.parts, issuing, left)
      modifies this
      ensures response.result.None? ==> ok
      ensures ok <==> Joins(old(s), response)
      ensures ok ==> s == Responded(old(s), response)
      ensures ok ==> Balanced(s) && Named(s) && Batching(s.batches, s.batchRequests, s.parts, issuing, left)
    {
      hide Balanced, Named, Batching, Join, LastError;
      if response.id.Some? && response.id.value in s.batchRequests {
        OpenPart(s.batches, s.batchRequests, s.parts, issuing, left, response.id.value);
        ok := JoinPart(response);
        if ok {
          RespondedKeeps(old(s), response, issuing, left);
        }
      } else {
        RespondedKeeps(s, response, issuing, left);
        s := s.(stdout := s.stdout + [response], hand := s.hand - AnswerOf(response));
        ok := true;
      }
    }

    /** The rest of `respond`, for a part of a split request. */
    method JoinPart(response: Message) returns (ok: bool)
      requires response.Reply? && IsPart(s, response) && BatchAt(s, s.batchRequests[response.id.value])
      modifies this
      ensures response.result.None? ==> ok
      ensures ok <==> Joins(old(s), response)
      ensures ok ==> s == Responded(old(s), response)
    {
      hide Join, LastError, AddPart, Clash;
      var id := response.id.value;
      var group := s.batchRequests[id];
      var batch := s.batches[group];
      JoinNext(s.parts[group], response);
      var result := batch.result;
      ok := true;
      if response.result.Some? {
        ok, result := PushPart(batch.result, response.result.value);
      }
      if ok {
        var next := Batch(batch.original, batch.remaining - 1, result,
                          if response.error.Some? then response.error else batch.error);
        assert next == Next(batch, PartsWith(s, response));
        s := if next.remaining != 0 then
          s.(batchRequests := s.batchRequests - {id}, batches := s.batches[group := next],
             parts := s.parts[group := s.parts[group] + [response]], hand := s.hand - multiset{id})
        else
          s.(batchRequests := s.batchRequests - {id}, batches := s.batches - {group}, parts := s.parts - {group},
             stdout := s.stdout + [BatchReply(next.original, next.error, next.result)], hand := s.hand - multiset{id});
      }
    }

    /** An error reply for a request in hand. */
    method Fail(original: Message)
      requires Balanced(s) && Named(s) && IdOf(original) <= s.hand
      requires Batching(s.batches, s.batchRequests, s.parts, None, 0)
      modifies this
      ensures Balanced(s) && Named(s) && Batching(s.batches, s.batchRequests, s.parts, None, 0)
      ensures Replied(old(s).(hand := old(s).hand - IdOf(original)), s)
    {
      hide Balanced, Named, Batching, Responded, Joins, Replied;
      var response := RpcError(original, "project server stopped");
      var ok := Respond(response, None, 0);
      RespondedErrors(old(s), response);
    }

    method Closed(b: nat)
      requires Core(s) && b < |s.backends| && (s.opening.None? || s.opening == Some(b))
      requires Batching(s.batches, s.batchRequests, s.parts, None, 0)
      modifies this
      ensures Valid(s) && Replied(Shut(old(s), b), s)
      ensures forall x: Id :: x.Given? ==> Answered(s, x) == Answered(old(s), x) + Owned(old(s), b)[x]
      ensures Idle(old(s), b) ==> s == Shut(old(s), b)
    {
      hide Core, Valid, Balanced, Named, Batching, Owned, Answered, OnlyErrors, DroppedWith, Shut;
      ghost var was := s;
      BooksOf(was);
      UnlinkedBooks(s, b);
      s := s.(host := Cleared(s.host, b), common := Cleared(s.common, b),
              backends := s.backends[b := s.backends[b].(live := false)],
              replies := s.replies - AskedFrom(s.replies, b), dropped := s.dropped + DroppedWith(s, b),
              projects := Others(s.projects, b), threads := Others(s.threads, b),
              activeTurns := Others(s.activeTurns, b), opening := None);
      FailPending(b);
      ghost var second := s;
      FailWaiters(b);
      ghost var third := s;
      FailQueue(b);
      ShutInSteps(was, second, third, s, b);
      if Idle(was, b) { ShutIdle(was, b); }
      AfterShut(was, s, b);
      AllAnswered(was, s, b);
    }

    /** The requests under way at the server, in any order. */
    method FailPending(b: nat)
      requires Balanced(s) && Named(s) && Batching(s.batches, s.batchRequests, s.parts, None, 0)
      modifies this
      ensures Balanced(s) && Named(s) && Batching(s.batches, s.batchRequests, s.parts, None, 0)
      ensures Replied(old(s).(pending := old(s).pending - OwnedBy(old(s).pending, b)), s)
      ensures OwnedBy(old(s).pending, b) == {} ==> s == old(s)
    {
      hide Balanced, Named, Batching, Replied;
      ghost var was := s;
      var ids := OwnedBy(s.pending, b);
      ghost var gone: set<Id> := {};
      assert was.pending - gone == was.pending;
      RepliedNothing(s);
      while ids != {}
        invariant ids + gone == OwnedBy(was.pending, b) && ids * gone == {}
        invariant Balanced(s) && Named(s) && Batching(s.batches, s.batchRequests, s.parts, None, 0)
        invariant Replied(was.(pending := was.pending - gone), s) && s.pending == was.pending - gone
        invariant gone == {} ==> s == was
        decreases ids
      {
        var id :| id in ids;
        var waiting := s.pending[id].waiting;
        ghost var before := s;
        TakenEntry(s, id);
        s := s.(pending := s.pending - {id}, hand := s.hand + PendingId(s.pending[id]));
        FailWaiting(waiting);
        assert before.hand + OriginalOf(waiting) - OriginalOf(waiting) == before.hand;
        RepliedPending(was.(pending := was.pending - gone), before, s, {id});
        ids, gone := ids - {id}, gone + {id};
        assert was.pending - gone == before.pending - {id};
      }
      assert gone == OwnedBy(was.pending, b);
    }

    method FailWaiting(waiting: Waiting)
      requires Balanced(s) && Named(s) && Batching(s.batches, s.batchRequests, s.parts, None, 0)
      requires OriginalOf(waiting) <= s.hand
      modifies this
      ensures Balanced(s) && Named(s) && Batching(s.batches, s.batchRequests, s.parts, None, 0)
      ensures Replied(old(s).(hand := old(s).hand - OriginalOf(waiting)), s) && s.pending == old(s).pending
    {
      hide Balanced, Named, Batching, OnlyErrors;
      if waiting.ForInitialize? {
        RepliedNothing(s);
      } else {
        Fail(waiting.original);
      }
    }

    /** Error replies for a list of messages in hand; notifications are dropped. */
    method FailAll(originals: seq<Message>)
      requires Balanced(s) && Named(s) && Batching(s.batches, s.batchRequests, s.parts, None, 0)
      requires Sum(originals, IdOf) <= s.hand
      modifies this
      ensures Balanced(s) && Named(s) && Batching(s.batches, s.batchRequests, s.parts, None, 0)
      ensures Replied(old(s).(hand := old(s).hand - Sum(originals, IdOf)), s)
    {
      hide Balanced, Named, Batching, Replied, Sum;
      ghost var was := s;
      SumNone<Message, Id>(originals[..0], IdOf);
      RepliedNothing(s);
      assert was.hand - multiset{} == was.hand;
      for i := 0 to |originals|
        invariant Balanced(s) && Named(s) && Batching(s.batches, s.batchRequests, s.parts, None, 0)
        invariant Replied(was.(hand := was.hand - Sum(originals[..i], IdOf)), s)
      {
        ghost var before, left := s, was.hand - Sum(originals[..i], IdOf);
        SameHand(was.(hand := left), s);
        NextInHand(was.hand, originals, i);
        if originals[i].id.Some? {
          Fail(originals[i]);
          RepliedHand(was.(hand := left), before, s, IdOf(originals[i]));
        }
      }
      assert originals[..|originals|] == originals;
    }

    /** The requests waiting for the handshake of the server to resume their thread. */
    method FailWaiters(b: nat)
      requires Balanced(s) && Named(s) && Batching(s.batches, s.batchRequests, s.parts, None, 0)
      modifies this
      ensures Balanced(s) && Named(s) && Batching(s.batches, s.batchRequests, s.parts, None, 0)
      ensures Replied(old(s).(activations := old(s).activations - {b}), s)
      ensures b !in old(s).activations ==> s == old(s)
    {
      hide Balanced, Named, Batching, Replied, Sum;
      TakenWaiters(s, b);
      if b in s.activations {
        var waiting := s.activations[b];
        OriginalIds(waiting);
        ghost var hand := s.hand;
        s := s.(activations := s.activations - {b}, hand := s.hand + ActivationIds(waiting));
        FailAll(seq(|waiting|, i requires 0 <= i < |waiting| => waiting[i].original));
        assert hand + ActivationIds(waiting) - ActivationIds(waiting) == hand;
      } else {
        RepliedNothing(s);
        assert s.activations - {b} == s.activations;
      }
    }

    /** The messages queued for the server. */
    method FailQueue(b: nat)
      requires Balanced(s) && Named(s) && Batching(s.batches, s.batchRequests, s.parts, None, 0)
      requires b < |s.backends|
      modifies this
      ensures Balanced(s) && Named(s) && Batching(s.batches, s.batchRequests, s.parts, None, 0)
      ensures Replied(Drained(old(s), b), s)
      ensures old(s).backends[b].queue == [] ==> s == old(s)
    {
      hide Balanced, Named, Batching, Replied, Sum;
      var queue := s.backends[b].queue;
      if queue == [] {
        RepliedNothing(s);
        assert s.backends[b := s.backends[b].(queue := [])] == s.backends;
      } else {
        TakenQueue(s, b);
        ghost var hand := s.hand;
        s := s.(backends := s.backends[b := s.backends[b].(queue := [])], hand := s.hand + QueueIds(s.backends[b]));
        FailAll(queue);
        assert hand + Sum(queue, IdOf) - Sum(queue, IdOf) == hand;
      }
    }

    // Threads.

    method StartActivation(b: nat, a: Activation) returns (ok: bool)
      requires Core(s) && s.opening.None? && s.initialize.Some?
      requires IsProject(RolesOf(s), s.backends, b) && s.backends[b].ready
      requires PlainActivation(a) && IdOf(a.original) <= s.hand
      modifies this
      ensures Core(s)
      ensures if ok then s == Resumed(old(s), b, a) else s == old(s) || s == Minting(old(s))
      ensures Moved(old(s), s, if ok then IdOf(a.original) else multiset{})
    {
      hide Core, Moved, Requested, MayRequest;
      MovedNothing(s);
      MintingMoved(s);
      RequestedMoved(s, b, Resume, a.resume, ForActivate(a.original));
      MayResume(s, b, a);
      var restored: bool := *;
      ok := false;
      if restored {
        ok := Request(b, Resume, a.resume, ForActivate(a.original));
      }
    }

    /** The shared server gives up a thread before its project server resumes it. */
    method ReleaseControlWriter(thread: string) returns (ok: bool)
      requires Valid(s)
      modifies this
      ensures Valid(s) && Served(old(s), s, multiset{}) && Released(old(s), s, thread)
    {
      hide Valid, Core, Replied, Served, Moved, Shut, Answered, Owned;
      MovedNothing(s);
      MovedServed(s, s, multiset{});
      ok := true;
      if thread in s.threads && s.common == Some(s.threads[thread]) {
        KnownThread(s, thread);
        ClosedServed(s, s.threads[thread]);
        Closed(s.threads[thread]);
        ok := *;
      }
    }

    method ActivateAt(thread: string, original: Message) returns (ok: bool)
      requires Valid(s) && s.initialize.Some?
      requires PlainCall(original) && FromClient(original) && IdOf(original) <= s.hand
      modifies this
      ensures Valid(s) && Served(old(s), s, if ok then IdOf(original) else multiset{})
      ensures ok ==> exists b :: Activating(s, b, original)
    {
      hide Valid, Core, Served, Moved, Activating, Resumed, ProjectUp;
      ok := ReleaseControlWriter(thread);
      ServedFacts(old(s), s, multiset{});
      if !ok {
        return;
      }
      ghost var first := s;
      ValidCore(s);
      var b: nat;
      ok, b := Project();
      MovedServed(first, s, multiset{});
      MovedValid(first, s, multiset{});
      ServedMore(old(s), first, s, multiset{}, multiset{});
      ServedFacts(old(s), s, multiset{});
      if !ok {
        return;
      }
      ghost var second := s;
      ValidCore(s);
      var template := if thread in s.threadResumes then Some(s.threadResumes[thread]) else None;
      var a := Activation(original, ResumeRequest(thread, template));
      if s.backends[b].ready {
        ok := StartActivation(b, a);
        if ok { ResumingAt(second, b, a); }
      } else {
        WaitsKeeps(s, b, a);
        WaitsMoved(s, b, a);
        WaitingAt(s, b, a);
        s := s.(activations := s.activations[b := (if b in s.activations then s.activations[b] else []) + [a]],
                hand := s.hand - IdOf(a.original));
      }
      ghost var ids := if ok then IdOf(original) else multiset{};
      MovedServed(second, s, ids);
      MovedValid(second, s, ids);
      ServedMore(old(s), second, s, multiset{}, ids);
    }

    method ActivateThread(thread: string, original: Message) returns (ok: bool)
      requires Valid(s) && s.initialize.Some?
      requires PlainCall(original) && FromClient(original) && IdOf(original) <= s.hand
      modifies this
      ensures Valid(s) && Served(old(s), s, if ok then IdOf(original) else multiset{})
      ensures ok ==> Locating(s, original) || exists b :: Activating(s, b, original)
    {
      hide Valid, Served, Locating, Activating;
      if thread in s.threadCwds {
        ok := ActivateAt(thread, original);
      } else {
        ok := Locate(thread, original);
      }
    }

    /** The shared server is asked where the thread lives. */
    method Locate(thread: string, original: Message) returns (ok: bool)
      requires Valid(s) && s.initialize.Some?
      requires PlainCall(original) && FromClient(original) && IdOf(original) <= s.hand
      modifies this
      ensures Valid(s) && Served(old(s), s, if ok then IdOf(original) else multiset{})
      ensures ok ==> Locating(s, original)
    {
      hide Valid, Core, Served, Moved, Requested, Minting, MayRequest, Locating;
      ValidCore(s);
      var b: nat;
      ok, b := Common();
      MovedServed(old(s), s, multiset{});
      MovedValid(old(s), s, multiset{});
      ServedFacts(old(s), s, multiset{});
      if !ok {
        return;
      }
      ghost var first := s;
      ValidCore(s);
      var lookup := Call(None, ThreadRead, Some(thread), None, None, None, "includeTurns: false");
      MayLookUp(s, b, lookup, original);
      LocatingNow(s, b, lookup, original);
      MintingMoved(s);
      RequestedMoved(s, b, Lookup, lookup, ForLocate(original));
      ok := Request(b, Lookup, lookup, ForLocate(original));
      ghost var ids := if ok then IdOf(original) else multiset{};
      MovedServed(first, s, ids);
      MovedValid(first, s, ids);
      ServedMore(old(s), first, s, multiset{}, ids);
    }

    // Split requests.

    /** One round of the loop over the directories of a split request. */
    method IssuePart(original: Message, cwd: Option<string>, group: Id, ghost left: nat)
      requires Core(s) && s.opening.None? && s.initialize.Some? && PlainCall(original)
      requires Batching(s.batches, s.batchRequests, s.parts, Some(group), left) && left > 0 && group in s.batches
      modifies this
      ensures Core(s) && Served(old(s), s, multiset{})
      ensures Batching(s.batches, s.batchRequests, s.parts, Some(group), left - 1)
      ensures left > 1 ==> group in s.batches
    {
      hide Core, Batching, Served, Moved, Responded, Joins, RunsThread, Current;
      ghost var was := s;
      var id := Fresh(s.minted);
      var request := PartRequest(original, id, cwd);
      IssuedKeeps(s, group, left);
      IssuedServed(s, group);
      s := s.(minted := s.minted + 1, batchRequests := s.batchRequests[id := group], hand := s.hand + multiset{id});
      ghost var first := s;
      MovedNothing(s);
      var ok := false;
      if cwd.Some? {
        ok := DispatchToProject(request);
      }
      MovedFacts(first, s, if ok then multiset{id} else multiset{});
      StillOpen(s.batches, s.batchRequests, s.parts, group, left - 1, id);
      if !ok {
        ghost var third := s;
        FailPart(RpcError(request, "no project server"), group, left - 1);
        ServedMore(first, third, s, multiset{}, multiset{id});
      }
      IssuedBack(was, first, s, id);
    }

    /** The server of the project at a directory is found or started, and gets the message. */
    method DispatchToProject(message: Message) returns (ok: bool)
      requires Core(s) && s.opening.None? && s.initialize.Some?
      requires PlainCall(message) && IdOf(message) <= s.hand
      modifies this
      ensures Core(s) && Moved(old(s), s, if ok then IdOf(message) else multiset{})
      ensures ok ==> exists root :: ProjectTook(old(s), s, root, message)
    {
      hide Core, Moved, RunsThread, Current, Dispatched, ProjectUp, ProjectTook, Gone;
      var b: nat;
      ok, b := Project();
      MovedFacts(old(s), s, multiset{});
      if ok {
        ghost var first := s;
        ProjectLives(s, b);
        ok := Dispatch(b, message);
        RootTook(old(s), first, b, message);
        MovedMore(old(s), first, s, if ok then IdOf(message) else multiset{});
      }
    }

    /** A part that could not be issued counts as failed at once. */
    method FailPart(response: Message, group: Id, ghost left: nat)
      requires Core(s) && Batching(s.batches, s.batchRequests, s.parts, Some(group), left)
      requires response.Reply? && response.error.Some? && response.result.None? && IdOf(response) <= s.hand
      requires IsPart(s, response) && s.batchRequests[response.id.value] == group
      requires group in s.batches && s.batches[group].remaining >= 1 + left
      modifies this
      ensures Core(s) && Batching(s.batches, s.batchRequests, s.parts, Some(group), left)
      ensures Served(old(s), s, IdOf(response)) && (left > 0 ==> group in s.batches)
    {
      hide Core, Batching, Served, Responded, Joins;
      BooksOf(s);
      var ok := Respond(response, Some(group), left);
      PartResponded(old(s), s, response, group);
      RespondedCore(old(s), response);
      RespondedServed(old(s), response);
    }

    method SplitRequest(original: Message)
      requires Valid(s) && s.initialize.Some? && PlainCall(original) && FromClient(original) && IdOf(original) <= s.hand
      requires original.cwds.Some? && |original.cwds.value| > 1
      modifies this
      ensures Valid(s) && Served(old(s), s, IdOf(original))
    {
      hide Valid, Core, Batching, Served;
      ValidCore(s);
      SplitKeeps(s, original);
      var cwds, group := original.cwds.value, Fresh(s.minted);
      SplitServed(s, original, |cwds|);
      s := s.(minted := s.minted + 1, batches := s.batches[group := Batch(original, |cwds|, map[], None)],
              parts := s.parts[group := []], hand := s.hand - IdOf(original));
      ghost var first := s;
      ServedNothing(s);
      for i := 0 to |cwds|
        invariant Core(s) && Served(first, s, multiset{})
        invariant Batching(s.batches, s.batchRequests, s.parts, Some(group), |cwds| - i)
        invariant i < |cwds| ==> group in s.batches
      {
        ServedFacts(first, s, multiset{});
        ghost var before := s;
        IssuePart(original, cwds[i], group, |cwds| - i);
        ServedMore(first, before, s, multiset{}, multiset{});
      }
      ServedFacts(first, s, multiset{});
      AllIssued(s, group);
      ServedLater(old(s), first, s, IdOf(original));
    }

    // Messages of the client.

    method Forward(b: nat, m: Message) returns (ok: bool)
      requires Valid(s) && b < |s.backends| && s.initialize.Some? && PlainCall(m) && IdOf(m) <= s.hand
      requires !Gone(s, b) && (RunsThread(m) ==> !Current(RolesOf(s), b))
      modifies this
      ensures Valid(s) && Served(old(s), s, if ok then IdOf(m) else multiset{})
      ensures ok ==> s == Dispatched(old(s), b, m)
    {
      hide Valid, Core, Served, Moved, Gone;
      ValidCore(s);
      ok := Dispatch(b, m);
      MovedServed(old(s), s, if ok then IdOf(m) else multiset{});
      MovedValid(old(s), s, if ok then IdOf(m) else multiset{});
    }

    method ForwardToProject(m: Message) returns (ok: bool)
      requires Valid(s) && s.initialize.Some? && PlainCall(m) && IdOf(m) <= s.hand
      modifies this
      ensures Valid(s) && Served(old(s), s, if ok then IdOf(m) else multiset{})
      ensures ok ==> exists root :: ProjectTook(old(s), s, root, m)
    {
      hide Valid, Core, Served, Moved, ProjectTook;
      ValidCore(s);
      ok := DispatchToProject(m);
      MovedServed(old(s), s, if ok then IdOf(m) else multiset{});
      MovedValid(old(s), s, if ok then IdOf(m) else multiset{});
    }

    method ForwardToCommon(m: Message) returns (ok: bool)
      requires Valid(s) && s.initialize.Some? && PlainCall(m) && IdOf(m) <= s.hand && !RunsThread(m)
      modifies this
      ensures Valid(s) && Served(old(s), s, if ok then IdOf(m) else multiset{})
      ensures ok ==> SharedTook(old(s), s, m)
    {
      hide Valid, Core, Served, Moved, WithCommon, Dispatched, SharedTook;
      ValidCore(s);
      var b: nat;
      ok, b := Common();
      MovedServed(old(s), s, multiset{});
      MovedValid(old(s), s, multiset{});
      ServedFacts(old(s), s, multiset{});
      if ok {
        ghost var first := s;
        ValidCore(s);
        CommonLives(s);
        ok := Forward(b, m);
        CommonTook(old(s), first, b, m);
        ServedMore(old(s), first, s, multiset{}, if ok then IdOf(m) else multiset{});
      }
    }

    /** The native server answers catalogue requests of directories that use its own home. */
    method HostStateBackend(m: Message) returns (ok: bool, b: Option<nat>)
      requires Valid(s) && m.Call?
      ensures b.Some? ==> s.host == b && b.value < |s.backends| && s.backends[b.value].live && m.verb.Catalogue?
      ensures b.Some? && m.cwds.Some? ==> forall cwd :: cwd in m.cwds.value ==> cwd.Some?
      ensures !ok ==> m.verb.Catalogue? && s.host.Some? && b.None?
    {
      hide Core;
      ok, b := true, None;
      HostKnown(s);
      if m.verb.Catalogue? && s.host.Some? && s.backends[s.host.value].live {
        var cwds := (if m.cwd.Some? then [m.cwd] else []) + (if m.cwds.Some? then m.cwds.value else []);
        for i := 0 to |cwds|
          invariant forall k :: 0 <= k < i ==> cwds[k].Some?
        {
          var found: bool, sameHome: bool := *, *;
          if cwds[i].None? {
            return;
          }
          if !found {
            ok := false;
            return;
          }
          if !sameHome {
            return;
          }
        }
        assert m.cwds.Some? ==> forall cwd :: cwd in m.cwds.value ==> cwd in cwds;
        b := s.host;
      }
    }

    /** Reading requests go to the server of their project if it runs. */
    method RouteRead(m: Message, known: Option<nat>) returns (done: bool, ok: bool)
      requires Valid(s) && s.initialize.Some? && PlainCall(m) && FromClient(m) && IdOf(m) <= s.hand
      requires ProjectRead(m.verb) && (known.Some? ==> known.value < |s.backends| && !Gone(s, known.value))
      modifies this
      ensures done ==> Valid(s) && Served(old(s), s, if ok then IdOf(m) else multiset{})
      ensures !done ==> s == old(s) && (known.None? || Current(RolesOf(s), known.value))
      ensures done && ok && known.Some? && !Current(RolesOf(old(s)), known.value) ==>
        s == Dispatched(old(s), known.value, m)
    {
      hide Valid, Served;
      done, ok := false, false;
      if known.Some? && !Current(RolesOf(s), known.value) {
        done := true;
        ok := Forward(known.value, m);
      } else if (m.cwds.Some? ==> |m.cwds.value| <= 1) && RequestCwd(m).Some? {
        var found: bool, root: string := *, *;
        if !found {
          ServedNothing(s);
          done := true;
        } else if root in s.projects {
          KnownProject(s, root);
          done := true;
          ok := Forward(s.projects[root], m);
        }
      }
    }

    /** The rest of `client` for requests that are not answered by the broker itself. */
    method Route(m: Message) returns (ok: bool)
      requires Valid(s) && s.initialize.Some? && PlainCall(m) && FromClient(m) && IdOf(m) <= s.hand
      modifies this
      ensures Valid(s) && Served(old(s), s, if ok then IdOf(m) else multiset{})
      ensures ok && Settles(old(s), m) ==> s == Dispatched(old(s), old(s).threads[m.thread.value], m)
      ensures Homeless(m) ==> !ok
    {
      hide Valid, Served, Gone, Dispatched, SharedTook, ProjectTook;
      ServedNothing(s);
      var known: Option<nat> := None;
      if m.thread.Some? && m.thread.value in s.threads {
        KnownThread(s, m.thread.value);
        known := Some(s.threads[m.thread.value]);
      }
      if ProjectRead(m.verb) {
        var done: bool;
        done, ok := RouteRead(m, known);
        if done {
          return;
        }
      }
      var host: Option<nat>;
      ok, host := HostStateBackend(m);
      if !ok {
        return;
      }
      if host.Some? {
        LiveIsNotGone(s, host.value);
        ok := Forward(host.value, m);
      } else if SharedState(m.verb) && !m.verb.ThreadStart? {
        if known.Some? && !Current(RolesOf(s), known.value) {
          ok := Forward(known.value, m);
        } else {
          ok := ForwardToCommon(m);
        }
      } else if m.cwds.Some? && |m.cwds.value| > 1 {
        SplitRequest(m);
        ok := true;
      } else {
        ok := RouteThread(m, known);
      }
    }

    /** Execution moves its thread to a project server first; anything else goes by thread or directory. */
    method RouteThread(m: Message, known: Option<nat>) returns (ok: bool)
      requires Valid(s) && s.initialize.Some? && PlainCall(m) && FromClient(m) && IdOf(m) <= s.hand
      requires known.Some? ==> known.value < |s.backends| && !Gone(s, known.value)
      modifies this
      ensures Valid(s) && Served(old(s), s, if ok then IdOf(m) else multiset{})
      ensures ok && known.Some? && !Current(RolesOf(old(s)), known.value) ==> s == Dispatched(old(s), known.value, m)
      ensures known.None? && Homeless(m) ==> !ok
    {
      hide Valid, Served;
      ServedNothing(s);
      if m.verb.Execution? && m.thread.Some?
         && (if known.Some? then Current(RolesOf(s), known.value) else m.thread.value in s.threadCwds) {
        ok := ActivateThread(m.thread.value, m);
      } else if known.Some? {
        ok := Forward(known.value, m);
      } else if RequestCwd(m).Some? {
        ok := ForwardToProject(m);
      } else if m.thread.Some? {
        ok := Locate(m.thread.value, m);
      } else if m.verb.ThreadStart? || m.verb.CommandExec? {
        ok := false;
      } else {
        ok := ForwardToCommon(m);
      }
    }

    /** The client's reply to a request of a server. */
    method AnswerServer(m: Message) returns (ok: bool)
      requires Valid(s) && m.Reply?
      modifies this
      ensures ok ==> m.id.Some? && m.id.value in old(s).replies
      ensures Fatal(old(s), ClientSays(m)) ==> !ok
      ensures ok ==> Valid(s) && s == AnsweredTo(old(s), m.id.value, m)
    {
      hide Valid, Core, Batching;
      ok := false;
      if m.id.Some? && m.id.value in s.replies {
        ghost var was := s;
        ValidCore(s);
        AnsweredKeeps(s, m.id.value, m);
        var asked := s.replies[m.id.value];
        AskerKnown(s, m.id.value);
        s := s.(replies := s.replies - {m.id.value});
        ok := Send(asked.owner, Answer, WithId(m, Some(asked.id)));
        if ok {
          assert s == AnsweredTo(was, m.id.value, m);
          StillValid(was, s);
        }
      }
    }

    /** One message of the client; a failed request is still in hand. */
    method Client(m: Message) returns (ok: bool)
      requires Valid(s) && m.Call? && FromClient(m) && Owed(s, m) <= s.hand
      modifies this
      ensures Valid(s) && Handled(Begun(old(s), m), s, if ok then Owed(old(s), m) else multiset{})
      ensures Homeless(m) && old(s).clientReady ==> !ok
      ensures m.verb.Initialized? && old(s).initialize.Some? ==> ok && s == old(s)
      ensures m.verb.Initialize? && ok ==>
        s == Requested(old(s).(initialize := Some(m)), 0, Handshake, m, ForClient(m))
      ensures m.verb.Initialize? && !ok ==> s == Minting(Begun(old(s), m))
      ensures !m.verb.Initialize? && old(s).initialize.None? ==> !ok && s == old(s)
      ensures PlainCall(m) && old(s).initialize.Some? && !old(s).clientReady ==>
        ok && s == Parked(old(s), m)
    {
      hide Valid, Core, Handled, Served;
      HandledNothing(s);
      ok := true;
      if m.verb.Initialize? {
        ok := StartClient(m);
      } else if s.initialize.None? {
        ok := false;
      } else if m.verb.Initialized? {
      } else if !s.clientReady {
        ValidCore(s);
        ParkedKeeps(s, m);
        ParkedHandled(s, m);
        s := s.(clientQueue := s.clientQueue + [m], hand := s.hand - IdOf(m));
      } else {
        var local: bool := *;
        if m.verb.Other? && local {
          var response: Message := *;
          if response.Reply? {
            AnswerLocally(m, response);
            return;
          }
        }
        ok := Route(m);
        ServedHandled(old(s), s, if ok then IdOf(m) else multiset{});
      }
    }

    /** The client's `initialize` goes to the first server. */
    method StartClient(m: Message) returns (ok: bool)
      requires Valid(s) && m.Call? && m.verb.Initialize? && FromClient(m) && IdOf(m) <= s.hand
      modifies this
      ensures Valid(s) && Handled(Begun(old(s), m), s, if ok then IdOf(m) else multiset{})
      ensures ok ==> s == Requested(old(s).(initialize := Some(m)), 0, Handshake, m, ForClient(m))
      ensures !ok ==> s == Minting(Begun(old(s), m))
    {
      hide Valid, Core, Handled, Requested, Minting, MayRequest;
      StartKeeps(s, m);
      s := s.(initialize := Some(m));
      ghost var first := s;
      ValidCore(s);
      ok := Request(0, Handshake, m, ForClient(m));
      StartHandled(first, m);
    }

    /** File system requests are answered by the broker itself. */
    method AnswerLocally(m: Message, response: Message)
      requires Valid(s) && m.Call? && response.Reply? && FromClient(m) && IdOf(m) <= s.hand
      modifies this
      ensures Valid(s) && s == Printed(old(s), WithId(response, m.id)) && Handled(old(s), s, IdOf(m))
    {
      hide Valid, Core, Batching, Handled, Printed;
      ghost var was := s;
      ValidCore(s);
      BooksOf(s);
      PrintedHandled(s, WithId(response, m.id));
      PrintedGroups(s, WithId(response, m.id));
      Output(WithId(response, m.id));
      StillValid(was, s);
    }

    // Messages of the servers.

    method Server(b: nat, m: Message) returns (ok: bool)
      requires Valid(s) && b < |s.backends|
      modifies this
      ensures ok ==> Valid(s) && Heard(old(s), s, b, m)
      ensures m.Call? ==> ok
      ensures Fatal(old(s), ServerSays(b, m)) ==> !ok
      ensures Safe(old(s), ServerSays(b, m)) ==> ok
      ensures ok && Accepts(old(s), m) ==> s.clientReady
    {
      hide Valid, Handled, Heard, HomelessParked, Certain, Unfit, Passed;
      if m.Call? {
        ServerCall(b, m);
        ok := true;
      } else {
        ok := ServerReply(b, m);
        if ok {
          RepliedHeard(old(s), s, b, m);
        }
      }
    }

    /** A notification or a request of a server is noted and passed on; a request gets a fresh id. */
    method ServerCall(b: nat, m: Message)
      requires Valid(s) && b < |s.backends| && m.Call?
      modifies this
      ensures Valid(s) && Heard(old(s), s, b, m)
      ensures NotesThread(old(s), s.activeTurns, s.threads, s.threadCwds, b, m)
      ensures s == Passed(old(s).(activeTurns := s.activeTurns, threads := s.threads, threadCwds := s.threadCwds), b, m)
    {
      hide Valid, Heard, AskedBy, Printed, NotesThread;
      NoteThread(b, m);
      PassedHeard(old(s), s, b, m);
      var line := m;
      if m.id.Some? {
        line := Ask(b, m, m.id.value);
      }
      Pass(line);
    }

    /** What a notification says about threads. */
    method NoteThread(b: nat, m: Message)
      requires Valid(s) && b < |s.backends| && m.Call?
      modifies this
      ensures Valid(s)
      ensures s == old(s).(activeTurns := s.activeTurns, threads := s.threads, threadCwds := s.threadCwds)
      ensures NotesThread(old(s), s.activeTurns, s.threads, s.threadCwds, b, m)
    {
      hide Valid, Remember, RememberCwd;
      var turns, threads, cwds := s.activeTurns, s.threads, s.threadCwds;
      if m.thread.Some? {
        if m.verb.TurnStarted? {
          turns := turns[m.thread.value := b];
        } else if m.verb.TurnCompleted? || m.verb.ThreadClosed? {
          turns := turns - {m.thread.value};
        }
      }
      if m.verb.ThreadClosed? {
        threads := if m.thread.Some? then threads - {m.thread.value} else threads;
      } else {
        threads := Remember(threads, b, m.about);
        cwds := RememberCwd(cwds, m.about);
      }
      NotesThreadKeeps(s, turns, threads, cwds, b, m);
      s := s.(activeTurns := turns, threads := threads, threadCwds := cwds);
    }

    method Ask(b: nat, m: Message, id: Id) returns (line: Message)
      requires Valid(s) && b < |s.backends| && m.Call?
      modifies this
      ensures Valid(s) && s == AskedBy(old(s), b, id) && line == WithId(m, Some(Fresh(old(s).minted)))
    {
      hide Valid, Core, Batching;
      ghost var was := s;
      ValidCore(s);
      AskedKeeps(s, b, id);
      line := WithId(m, Some(Fresh(s.minted)));
      s := s.(minted := s.minted + 1, replies := s.replies[Fresh(s.minted) := Asked(b, id)],
              asked := s.asked + multiset{(b, id)});
      StillValid(was, s);
    }

    method Pass(line: Message)
      requires Valid(s) && line.Call?
      modifies this
      ensures Valid(s) && s == Printed(old(s), line)
    {
      hide Valid, Core, Batching;
      ghost var was := s;
      ValidCore(s);
      BooksOf(s);
      Output(line);
      StillValid(was, s);
    }

    /** A reply settles what waits for it; the run ends on one that nothing waits for. */
    method ServerReply(b: nat, m: Message) returns (ok: bool)
      requires Valid(s) && b < |s.backends| && m.Reply?
      modifies this
      ensures ok ==> Expected(old(s), b, m) && Valid(s) && Handled(old(s), s, multiset{})
      ensures Expected(old(s), b, m) && Certain(old(s), old(s).pending[m.id.value].waiting, m) ==> ok
      ensures Expected(old(s), b, m) && Unfit(old(s), old(s).pending[m.id.value].waiting, m) ==> !ok
      ensures Accepts(old(s), m) && ok ==> s.clientReady && !HomelessParked(old(s))
    {
      hide Valid, Core, Handled, HomelessParked, Certain, Unfit, Settling;
      if m.id.None? || m.id.value !in s.pending {
        return false;
      }
      ghost var was := s;
      var id := m.id.value;
      var entry := s.pending[id];
      SettlingNow(s, id);
      s := s.(pending := s.pending - {id}, hand := s.hand + PendingId(entry),
              opening := if entry.waiting.ForInitialize? then Some(entry.owner) else s.opening);
      ghost var first := s;
      if entry.owner != b {
        return false;
      }
      CertainAlike(was, s, entry.waiting, m);
      ok := Settle(b, entry.waiting, m);
      if ok {
        SettledHandled(was, first, s, PendingId(entry));
      }
    }

    /** What waited for the reply is settled. */
    method Settle(b: nat, waiting: Waiting, m: Message) returns (ok: bool)
      requires Settling(s, b, waiting) && m.Reply?
      modifies this
      ensures ok ==> Valid(s) && Handled(old(s), s, OriginalOf(waiting))
      ensures (Certain(old(s), waiting, m) ==> ok) && (Unfit(old(s), waiting, m) ==> !ok)
      ensures Initializes(waiting) && m.error.None? && ok ==> s.clientReady && !HomelessParked(old(s))
    {
      hide Valid, Core, Batching, Handled, HomelessParked, Joins, Attached;
      match waiting {
        case ForInitialize =>
          ok := HandshakeReply(b, m);
        case ForClient(original) =>
          ValidNow(s);
          ok := ClientReply(b, original, m);
        case ForLocate(original) =>
          ValidNow(s);
          LocateReply(original, m);
          ok := true;
        case ForActivate(original) =>
          ValidNow(s);
          ok := ActivateReply(b, original, m);
      }
    }

    // Handshakes.

    /** The server's reply to `initialize`: waiting threads are resumed, then queued messages are sent. */
    method HandshakeReply(b: nat, m: Message) returns (ok: bool)
      requires Core(s) && s.opening == Some(b) && Batching(s.batches, s.batchRequests, s.parts, None, 0)
      requires s.initialize.Some? && b < |s.backends| && s.backends[b].live && Attached(RolesOf(s), s.backends, b)
      requires m.Reply?
      modifies this
      ensures ok ==> Valid(s) && Handled(old(s), s, multiset{})
      ensures ok && m.error.None? ==> Flushed(old(s), s, b)
      ensures m.error.Some? ==> ok && Refused(old(s), s, b)
    {
      hide Valid, Core, Batching, Handled, Attached, Flushed, Replied, Wrote, Waiters, Opened, Shut, Answered, Owned;
      if m.error.Some? {
        ClosedHandled(s, b);
        Closed(b);
        return true;
      }
      ghost var was := s;
      var waiting := Waiters(s, b);
      WaitersFacts(s, b);
      ok := Open(b);
      if !ok {
        return;
      }
      ghost var first := s;
      OpenedFacts(was, b);
      ok := ResumeAll(b, waiting);
      if !ok {
        return;
      }
      ghost var second := s;
      ok := FlushQueue(b);
      if ok {
        FlushedInSteps(was, first, second, s, b);
      }
    }

    /** The handshake is acknowledged and the server is ready; its waiting threads are in hand. */
    method Open(b: nat) returns (ok: bool)
      requires Core(s) && (s.opening.None? || s.opening == Some(b))
      requires Batching(s.batches, s.batchRequests, s.parts, None, 0)
      requires b < |s.backends| && s.backends[b].live && Attached(RolesOf(s), s.backends, b)
      modifies this
      ensures ok ==> Valid(s) && s == OpenedNow(old(s), b)
    {
      hide Valid, Core, Batching, Attached;
      ghost var was := s;
      OpenedKeeps(s, b, Line(b, Greeting, GREETING));
      ok := Send(b, Greeting, GREETING);
      if ok {
        s := s.(backends := s.backends[b := s.backends[b].(ready := true)], activations := s.activations - {b},
                opening := None, hand := s.hand + ActivationIds(Waiters(s, b)));
        ValidNow(s);
      }
    }

    method ResumeAll(b: nat, waiting: seq<Activation>) returns (ok: bool)
      requires Valid(s) && s.initialize.Some? && b < |s.backends| && s.backends[b].ready
      requires waiting != [] ==> IsProject(RolesOf(s), s.backends, b)
      requires AllPlain(waiting) && ActivationIds(waiting) <= s.hand
      modifies this
      ensures ok ==> Valid(s) && Moved(old(s), s, ActivationIds(waiting)) && Steady(old(s), s)
      ensures ok ==> Wrote(old(s).written, s.written, b, Resume, Resumes(waiting))
    {
      hide Valid, Core, Moved, Wrote, Sum, IsProject, Steady;
      ghost var was, resumes := s, Resumes(waiting);
      MovedNothing(s);
      SumNone<Activation, Id>(waiting[..0], ActivationId);
      WroteNothing(s.written, b, Resume, resumes);
      SteadyNothing(s);
      ok := true;
      for i := 0 to |waiting|
        invariant ok && Valid(s) && Moved(was, s, Sum(waiting[..i], ActivationId)) && Steady(was, s)
        invariant Wrote(was.written, s.written, b, Resume, resumes[..i])
      {
        ghost var before, done := s, Sum(waiting[..i], ActivationId);
        MovedFacts(was, s, done);
        SumPrefix(waiting, i, ActivationId);
        StillInHand(was.hand, done, IdOf(waiting[i].original), ActivationIds(waiting));
        SteadyFacts(was, s);
        ValidCore(s);
        ok := StartActivation(b, waiting[i]);
        if !ok {
          return;
        }
        MovedValid(before, s, IdOf(waiting[i].original));
        MovedTwice(was, before, s, done, IdOf(waiting[i].original));
        ResumedSteady(before, b, waiting[i]);
        SteadyMore(was, before, s);
        WroteOne(was.written, before.written, s.written, b, Resume, resumes, i);
      }
      assert waiting[..|waiting|] == waiting && resumes[..|waiting|] == resumes;
    }

    /** What was queued for the server is sent in the order it arrived. */
    method FlushQueue(b: nat) returns (ok: bool)
      requires Valid(s) && s.initialize.Some? && b < |s.backends| && s.backends[b].ready && s.backends[b].live
      modifies this
      ensures ok ==> Valid(s) && Served(old(s), s, multiset{}) && s.clientQueue == old(s).clientQueue
      ensures ok ==> Wrote(old(s).written, s.written, b, Via.Dispatch, old(s).backends[b].queue)
    {
      hide Valid, Core, Moved, Wrote, Sum, Steady, RunsThread, Current, Served, Gone, Dispatched, Minting;
      var queue := s.backends[b].queue;
      ValidCore(s);
      DrainedKeeps(s, b);
      DrainedValid(s, b);
      s := s.(backends := s.backends[b := s.backends[b].(queue := [])], hand := s.hand + QueueIds(s.backends[b]));
      ghost var was := s;
      MovedNothing(s);
      SumNone<Message, Id>(queue[..0], IdOf);
      WroteNothing(s.written, b, Via.Dispatch, queue);
      SteadyNothing(s);
      ok := true;
      for i := 0 to |queue|
        invariant ok && Valid(s) && Moved(was, s, Sum(queue[..i], IdOf)) && Steady(was, s)
        invariant Wrote(was.written, s.written, b, Via.Dispatch, queue[..i])
      {
        ghost var before, done := s, Sum(queue[..i], IdOf);
        MovedFacts(was, s, done);
        SumPrefix(queue, i, IdOf);
        StillInHand(was.hand, done, IdOf(queue[i]), Sum(queue, IdOf));
        SteadyFacts(was, s);
        ValidCore(s);
        LiveIsNotGone(s, b);
        ok := Dispatch(b, queue[i]);
        if !ok {
          return;
        }
        MovedValid(before, s, IdOf(queue[i]));
        MovedTwice(was, before, s, done, IdOf(queue[i]));
        DeliveredSteady(before, b, queue[i]);
        SteadyMore(was, before, s);
        WroteOne(was.written, before.written, s.written, b, Via.Dispatch, queue, i);
      }
      assert queue[..|queue|] == queue;
      SteadyFacts(was, s);
      DrainedServed(old(s), was, s, b);
    }

    // Replies of the servers.

    method ClientReply(b: nat, original: Message, m: Message) returns (ok: bool)
      requires Valid(s) && s.initialize.Some? && b < |s.backends| && s.backends[b].live
      requires Attached(RolesOf(s), s.backends, b) && (original.Call? && original.verb.Initialize? ==> b == 0)
      requires original.Call? && IdOf(original) <= s.hand && m.Reply?
      modifies this
      ensures ok ==> Valid(s) && Handled(old(s), s, IdOf(original))
      ensures original.verb.Initialize? && m.error.None? ==> (ok ==> s.clientReady && !HomelessParked(old(s)))
      ensures !original.verb.Initialize? ==> (ok <==> Joins(old(s), WithId(m, original.id)))
    {
      hide Valid, Core, Handled, Attached, HomelessParked, Joins;
      var starting := original.verb.Initialize?;
      HandledNothing(s);
      ok := true;
      if starting && m.error.None? {
        ok := OpenFirst();
      }
      if ok {
        ghost var first := s;
        HandledFacts(old(s), s, multiset{});
        ok := AnswerClient(b, original, m);
        if ok {
          HandledMore(old(s), first, s, multiset{}, IdOf(original));
        }
      }
      if ok && starting && s.backends[b].ready {
        ghost var second := s;
        HandledFacts(old(s), s, IdOf(original));
        ParkedAlike(old(s), s);
        ok := ServeQueues(b);
        if ok {
          HandledMore(old(s), second, s, IdOf(original), multiset{});
        }
      }
    }

    /** The first server accepted the client's `initialize`. */
    method OpenFirst() returns (ok: bool)
      requires Valid(s) && |s.backends| > 0 && s.backends[0].live && Attached(RolesOf(s), s.backends, 0)
      modifies this
      ensures ok ==> Valid(s) && Handled(old(s), s, multiset{})
      ensures ok ==> s.backends[0].ready && s.backends[0].live && s.clientQueue == old(s).clientQueue
      ensures ok ==> SameGroups(old(s), s)
    {
      hide Valid, Core, Handled, Attached, OpenedNow;
      ValidCore(s);
      FirstIsIdle(s);
      OpenedFacts(s, 0);
      ok := Open(0);
      if ok {
        HandledNothing(old(s));
        HandledSame(old(s), s);
      }
    }

    method AnswerClient(b: nat, original: Message, m: Message) returns (ok: bool)
      requires Valid(s) && b < |s.backends| && s.backends[b].live
      requires original.Call? && IdOf(original) <= s.hand && m.Reply?
      modifies this
      ensures ok <==> Joins(old(s), WithId(m, original.id))
      ensures ok ==> Valid(s) && Handled(old(s), s, IdOf(original))
      ensures ok ==> s.backends == old(s).backends && s.clientQueue == old(s).clientQueue
    {
      hide Valid, Handled, Served, Responded, Joins, NotesReply, Grows;
      NoteReply(b, original, m);
      NotesReplyRests(old(s), s.threads, s.threadCwds, s.threadResumes, b, original, m);
      SameJoins(old(s), s, WithId(m, original.id));
      ghost var first := s;
      ok := RespondAs(original, m);
      if ok {
        ServedHandled(first, s, IdOf(original));
        SameHandled(old(s), first, s, IdOf(original));
      }
    }

    /** The client may be served now: first what waits at the server, then what waited for it. */
    method ServeQueues(b: nat) returns (ok: bool)
      requires Valid(s) && s.initialize.Some? && b < |s.backends| && s.backends[b].ready && s.backends[b].live
      modifies this
      ensures ok ==> Valid(s) && Handled(old(s), s, multiset{}) && s.clientReady
      ensures HomelessParked(old(s)) ==> !ok
    {
      hide Valid, Core, Handled, Served, Batching, HomelessParked;
      ghost var was := s;
      ValidCore(s);
      ClientReadyKeeps(s);
      s := s.(clientReady := true);
      StillValid(was, s);
      ghost var first := s;
      ok := FlushQueue(b);
      if !ok {
        return;
      }
      ghost var second := s;
      ServedFacts(first, s, multiset{});
      ParkedAlike(was, s);
      ghost var failed: Option<Message>;
      ok, failed := FlushClient();
      if ok {
        ServedHandled(first, second, multiset{});
        HandledMore(first, second, s, multiset{}, multiset{});
        SameHandled(was, first, s, multiset{});
        HandledFacts(first, s, multiset{});
      }
    }

    /** Parked requests are served in the order they arrived; the first that fails ends the run. */
    method FlushClient() returns (ok: bool, ghost failed: Option<Message>)
      requires Valid(s) && s.initialize.Some? && s.clientReady
      modifies this
      ensures ok ==> Valid(s) && Handled(old(s), s, multiset{})
      ensures ok <==> failed.None?
      ensures failed.Some? ==> failed.value in old(s).clientQueue
      ensures HomelessParked(old(s)) ==> !ok
    {
      hide Valid, Core, Handled, Sum, Homeless, HomelessIn, Begun, Owed, Requested;
      var queue := s.clientQueue;
      UnparkedValid(s);
      s := s.(clientQueue := [], hand := s.hand + Sum(s.clientQueue, IdOf));
      ghost var was := s;
      HandledNothing(s);
      SumNone<Message, Id>(queue[..0], IdOf);
      ok, failed := true, None;
      assert !HomelessIn(queue[..0]) by {
        NoneHomeless();
      }
      for i := 0 to |queue|
        invariant ok && failed.None? && Valid(s) && Handled(was, s, Sum(queue[..i], IdOf))
        invariant s.initialize.Some? && s.clientReady
        invariant !HomelessIn(queue[..i])
      {
        ghost var before, done := s, Sum(queue[..i], IdOf);
        HandledFacts(was, s, done);
        SumPrefix(queue, i, IdOf);
        StillInHand(was.hand, done, IdOf(queue[i]), Sum(queue, IdOf));
        assert queue[i] in queue;
        PlainBegins(s, queue[i]);
        HomelessNext(queue, i);
        ok := Client(queue[i]);
        if !ok {
          failed := Some(queue[i]);
          return;
        }
        HandledFacts(before, s, IdOf(queue[i]));
        HandledMore(was, before, s, done, IdOf(queue[i]));
      }
      assert queue[..|queue|] == queue;
      UnparkedHandled(old(s), was, s);
    }

    /** What a reply says about threads. */
    method NoteReply(b: nat, original: Message, m: Message)
      requires Valid(s) && b < |s.backends| && original.Call? && m.Reply?
      modifies this
      ensures Valid(s)
      ensures s == old(s).(threads := s.threads, threadCwds := s.threadCwds, threadResumes := s.threadResumes)
      ensures NotesReply(old(s), s.threads, s.threadCwds, s.threadResumes, b, original, m)
    {
      hide Valid, Remember, RememberCwd;
      var threads, cwds, resumes := s.threads, s.threadCwds, s.threadResumes;
      var opens := Opens(original.verb);
      if m.error.None? {
        cwds := RememberCwd(cwds, m.about);
        if Current(RolesOf(s), b) && opens && m.about.Some? && m.about.value.id.Some? {
          resumes := resumes[m.about.value.id.value := original];
        }
      }
      if opens {
        cwds := RememberCwd(cwds, m.about);
        threads := Remember(threads, b, m.about);
      }
      if m.error.None? && original.thread.Some? {
        if original.verb.ThreadUnsubscribe? || original.verb.ThreadArchive? {
          threads := threads - {original.thread.value};
        } else if !original.verb.ThreadRead? {
          threads := threads[original.thread.value := b];
        }
      }
      RememberedCwd(s.threadCwds, m.about);
      NotesReplyKeeps(s, threads, cwds, resumes, b, original, m);
      s := s.(threads := threads, threadCwds := cwds, threadResumes := resumes);
    }

    /** The reply of a server goes to the client under the id of its own request. */
    method RespondAs(original: Message, m: Message) returns (ok: bool)
      requires Valid(s) && m.Reply? && IdOf(original) <= s.hand
      modifies this
      ensures ok <==> Joins(old(s), WithId(m, original.id))
      ensures ok ==> s == Responded(old(s), WithId(m, original.id))
      ensures ok ==> Valid(s) && Served(old(s), s, IdOf(original))
      ensures ok ==> s.backends == old(s).backends && s.clientQueue == old(s).clientQueue
    {
      hide Valid, Core, Batching, Served, Responded, Joins;
      ghost var was := s;
      ValidCore(s);
      BooksOf(s);
      var response := WithId(m, original.id);
      ok := Respond(response, None, 0);
      if ok {
        RespondedCore(was, response);
        RespondedServed(was, response);
        RespondedBackends(was, response);
        ValidNow(s);
      }
    }

    /** The shared server says where a thread lives: the request moves to its project. */
    method LocateReply(original: Message, m: Message)
      requires Valid(s) && s.initialize.Some? && PlainCall(original) && FromClient(original)
      requires IdOf(original) <= s.hand && m.Reply?
      modifies this
      ensures Valid(s) && Handled(old(s), s, IdOf(original))
      ensures m.about.None? || m.about.value.cwd.None? ==> s == Printed(old(s), RpcError(original, "request failed"))
      ensures m.about.Some? && m.about.value.cwd.Some? ==> Relocated(old(s), s, original, m)
    {
      hide Valid, Core, Served, Handled, Batching, Printed, Activating, ProjectTook, RememberCwd;
      ghost var was := s;
      var ok := false;
      if m.about.Some? && m.about.value.cwd.Some? {
        ValidCore(s);
        TablesKeep(s, s.activeTurns, s.threads, RememberCwd(s.threadCwds, m.about), s.threadResumes, 0);
        s := s.(threadCwds := RememberCwd(s.threadCwds, m.about));
        StillValid(was, s);
        ghost var first := s;
        if original.verb.Execution? {
          ServedNothing(s);
          if original.thread.Some? {
            ok := ActivateAt(original.thread.value, original);
          }
        } else {
          ok := ForwardToProject(original);
        }
        ServedHandled(first, s, if ok then IdOf(original) else multiset{});
        SameHandled(was, first, s, if ok then IdOf(original) else multiset{});
      } else {
        HandledNothing(s);
      }
      if !ok {
        ghost var second := s;
        HandledFacts(was, s, multiset{});
        Refuse(original);
        PrintedLast(second, RpcError(original, "request failed"));
        HandledMore(was, second, s, multiset{}, IdOf(original));
      }
    }

    /** A failed request of the client gets an error reply. */
    method Refuse(original: Message)
      requires Valid(s) && FromClient(original) && IdOf(original) <= s.hand
      modifies this
      ensures Valid(s) && Handled(old(s), s, IdOf(original))
      ensures s == Printed(old(s), RpcError(original, "request failed"))
    {
      hide Valid, Core, Batching, Handled, Printed;
      ghost var was := s;
      ValidCore(s);
      BooksOf(s);
      PrintedHandled(s, RpcError(original, "request failed"));
      PrintedGroups(s, RpcError(original, "request failed"));
      Output(RpcError(original, "request failed"));
      StillValid(was, s);
    }

    /** The thread was resumed in its project server, or not. */
    method ActivateReply(b: nat, original: Message, m: Message) returns (ok: bool)
      requires Valid(s) && s.initialize.Some? && IsProject(RolesOf(s), s.backends, b)
      requires PlainCall(original) && FromClient(original) && IdOf(original) <= s.hand && m.Reply?
      modifies this
      ensures ok ==> Valid(s) && Handled(old(s), s, IdOf(original))
      ensures m.error.Some? ==> ok
      ensures ok && m.error.Some? ==> AnsweredWith(old(s), s, WithId(m, original.id))
      ensures ok && m.error.None? ==> SentOn(old(s), s, b, original, m)
    {
      hide Valid, Core, Served, Handled, Batching, Current, RunsThread, Dispatched, Responded, Joins;
      if m.error.Some? {
        OriginalJoins(s, original, m);
        ok := RespondAs(original, m);
        if ok {
          ServedHandled(old(s), s, IdOf(original));
        }
        return;
      }
      ghost var was := s;
      ValidCore(s);
      TablesKeep(s, s.activeTurns, Remember(s.threads, b, m.about), RememberCwd(s.threadCwds, m.about),
                 s.threadResumes, b);
      ProjectLives(s, b);
      RememberedRests(s, b, m.about);
      s := s.(threads := Remember(s.threads, b, m.about), threadCwds := RememberCwd(s.threadCwds, m.about));
      StillValid(was, s);
      ghost var first := s;
      ProjectNotCurrent(s, b);
      ok := Forward(b, original);
      if ok {
        ServedHandled(first, s, IdOf(original));
        SameHandled(was, first, s, IdOf(original));
      }
    }

    // Idle servers.

    /** One server of the maintenance round: only a server nothing depends on is closed. */
    method EvictIdle(b: nat)
      requires Valid(s) && b < |s.backends|
      modifies this
      ensures Valid(s) && Handled(old(s), s, multiset{}) && LostNothing(old(s), s)
      ensures s == old(s) || (Unused(old(s), b) && s == Shut(old(s), b))
    {
      hide Valid, Core, Handled, Replied, LostNothing, Shut, Answered, Owned;
      SameLost(s);
      HandledNothing(s);
      ClosedHandled(s, b);
      if s.host == Some(b) || !s.backends[b].live {
        return;
      }
      var control := s.common == Some(b);
      if s.backends[b].queue != []
         || (!control && exists t :: t in s.threads && s.threads[t] == b)
         || (exists t :: t in s.activeTurns && s.activeTurns[t] == b)
         || (exists id :: id in s.pending && s.pending[id].owner == b)
         || (exists id :: id in s.replies && s.replies[id].owner == b)
      {
        return;
      }
      var idle: bool := *;
      if idle {
        UnusedIsIdle(s, b);
        ShutLosesNothing(s, b);
        ValidCore(s);
        Closed(b);
      }
    }

    method Maintain(changes: seq<Message>)
      requires Valid(s) && forall m :: m in changes ==> m.Call?
      modifies this
      ensures Valid(s) && Handled(old(s), s, multiset{})
      ensures LostNothing(old(s).(stdout := old(s).stdout + changes), s)
    {
      hide Valid, Handled, LostNothing;
      ghost var was := s;
      HandledNothing(s);
      assert s.stdout + changes[..0] == s.stdout;
      for i := 0 to |changes|
        invariant Valid(s) && Handled(was, s, multiset{}) && s == was.(stdout := was.stdout + changes[..i])
      {
        ghost var before := s;
        assert changes[i] in changes && changes[..i + 1] == changes[..i] + [changes[i]];
        Pass(changes[i]);
        ChangePrinted(before, changes[i]);
        HandledMore(was, before, s, multiset{}, multiset{});
        assert was.stdout + changes[..i] + [changes[i]] == was.stdout + changes[..i + 1];
      }
      assert changes[..|changes|] == changes;
      ghost var told := s;
      SameLost(s);
      for b := 0 to |s.backends|
        invariant Valid(s) && Handled(was, s, multiset{}) && LostNothing(told, s)
        invariant |s.backends| == |told.backends|
      {
        ghost var before := s;
        EvictIdle(b);
        LostFacts(before, s);
        LostMore(told, before, s);
        HandledMore(old(s), before, s, multiset{}, multiset{});
      }
    }

    // The event loop.

    /** The first server is the native one if there is one, and the shared container server otherwise. */
    constructor (native: bool)
      ensures Valid(s) && s == Initial(native)
    {
      s := Initial(native);
      new;
      InitialValid(native);
    }

    /** One message of the client: a failed request gets an error reply, any other failure ends the run. */
    method TakeIn(m: Message) returns (running: bool)
      requires Valid(s) && s.hand == multiset{} && (m.Call? ==> FromClient(m))
      modifies this
      ensures running ==> Valid(s) && s.hand == multiset{} && s.received == old(s).received + Owed(old(s), m)
      ensures running ==> Grows(old(s), s) && s.initialize == Begun(old(s), m).initialize
      ensures Safe(old(s), ClientSays(m)) ==> running
      ensures Fatal(old(s), ClientSays(m)) ==> !running
      ensures m.Call? && m.verb.Initialize? ==> s.clientReady == old(s).clientReady
      ensures PlainCall(m) && old(s).initialize.Some? && !old(s).clientReady ==>
        running && s == ParkedIn(old(s), m)
      ensures Homeless(m) && m.id.Some? && old(s).clientReady ==> LastLine(s, RpcError(m, "request failed"))
    {
      hide Valid, Handled, Core, Homeless, Grows, Owed, Begun, Requested, Minting, AnsweredTo, Printed,
        Parked, ParkedIn, PlainCall, FromClient;
      if m.Reply? {
        ReplyBegins(s, m);
        running := AnswerServer(m);
        if running {
          AnsweredGrows(old(s), m.id.value, m);
        }
        return;
      }
      var owed := Owed(s, m);
      ReceivedValid(s, m);
      ReceivedFacts(s, m);
      s := s.(received := s.received + owed, hand := owed);
      ghost var first := s;
      running := Client(m);
      HandledFacts(Begun(first, m), s, if running then owed else multiset{});
      StartedFacts(first, m);
      ParkedFacts(old(s), m);
      SameGrowth(old(s), Begun(first, m), s);
      OwedToFail(old(s), m);
      assert owed - owed == multiset{} && owed - multiset{} == owed;
      if !running && m.id.Some? {
        ghost var second := s;
        Refuse(m);
        HandledFacts(second, s, IdOf(m));
        PrintedLast(second, RpcError(m, "request failed"));
        GrowsMore(old(s), second, s);
        running := true;
      }
    }

    /** Any run: the broker takes events until one ends it. */
    method Serve(events: seq<Event>) returns (running: bool, ghost states: seq<State>)
      requires Valid(s) && s.hand == multiset{}
      requires forall e :: e in events ==> Plausible(e)
      modifies this
      ensures Trail(states, events) && states[0] == old(s)
      ensures running ==> |states| == |events| + 1 && s == states[|events|] && Took(old(s), s, events)
      ensures !running ==> |states| <= |events| && !Safe(states[|states| - 1], events[|states| - 1])
      ensures (forall e :: e in events ==> Tame(e, |old(s).backends|)) ==> running
    {
      hide Valid, Trail, Took, TookEvent, Safe, Fatal, Tame;
      running, states := true, [s];
      TrailStarts(s, events);
      for i := 0 to |events|
        invariant running && Valid(s) && s.hand == multiset{}
        invariant Trail(states, events) && |states| == i + 1 && states[0] == old(s) && states[i] == s
      {
        assert events[i] in events;
        running := TakeEvent(events[i]);
        if !running {
          if forall e :: e in events ==> Tame(e, |old(s).backends|) {
            TameRuns(states, events);
          }
          return;
        }
        TrailGrows(states, s, events);
        states := states + [s];
      }
      TrailTook(states, events, |events|);
      assert events[..|events|] == events;
    }

    /** One event. */
    method TakeEvent(e: Event) returns (running: bool)
      requires Valid(s) && s.hand == multiset{} && Plausible(e)
      modifies this
      ensures running ==> Valid(s) && s.hand == multiset{} && TookEvent(old(s), s, e)
      ensures Safe(old(s), e) ==> running
      ensures Fatal(old(s), e) ==> !running
    {
      hide Valid, Handled, Heard, Core, Replied, Owned, Answered, TookEvent, Begun, Owed, Grows, Homeless;
      hide HomelessParked, Expected, Certain, Unfit, Accepts, PlainCall;
      ghost var before := s;
      match e {
        case ClientSays(m) =>
          running := TakeIn(m);
          if running {
            TookClient(before, s, m);
          }
        case ServerSays(b, m) =>
          running := false;
          if b < |s.backends| {
            running := Server(b, m);
          }
          if running {
            TookServer(before, s, b, m);
          }
        case ServerEnds(b) =>
          running := s.host != Some(b) && b < |s.backends|;
          if running {
            ValidCore(s);
            ClosedHandled(s, b);
            Closed(b);
            TookEnd(before, s, b);
          }
        case Tick(changes) =>
          Maintain(changes);
          TookTick(before, s, changes);
          running := true;
        case End =>
          running := false;
      }
    }
  }

  /** One failing request, two ends: parked before the first server accepts `initialize` it ends the run when that
      accepts, and sent afterwards it is refused with an error reply and the run goes on. */
  method ParkedOrRefused(native: bool, start: Message, request: Message, reply: Message)
    returns (parked: bool, parkedGoesOn: bool, ready: bool, readyGoesOn: bool, lines: seq<Message>)
    requires start.Call? && start.verb.Initialize? && start.id.Some? && FromClient(start)
    requires Homeless(request) && request.id.Some? && FromClient(request)
    ensures parked ==> !parkedGoesOn
    ensures ready ==> readyGoesOn && lines != [] && lines[|lines| - 1] == RpcError(request, "request failed")
  {
    parked, parkedGoesOn := ParkedEndsTheRun(native, start, request, reply);
    ready, readyGoesOn, lines := ReadyIsRefused(native, start, request, reply);
  }

  method ParkedEndsTheRun(native: bool, start: Message, request: Message, reply: Message)
    returns (accepted: bool, running: bool)
    requires start.Call? && start.verb.Initialize? && start.id.Some? && FromClient(start)
    requires Homeless(request) && FromClient(request)
    ensures accepted ==> !running
  {
    hide Valid, Requested, Heard, Certain, Unfit, HomelessParked, Grows;
    var broker := new Broker(native);
    InitialFacts(native);
    running := broker.TakeIn(start);
    running := broker.TakeIn(request);
    HomelessLast(broker.s, request);
    accepted := Accepts(broker.s, reply) && |broker.s.backends| > 0;
    if accepted {
      running := broker.Server(0, reply);
    }
  }

  method ReadyIsRefused(native: bool, start: Message, request: Message, reply: Message)
    returns (accepted: bool, running: bool, lines: seq<Message>)
    requires start.Call? && start.verb.Initialize? && start.id.Some? && FromClient(start)
    requires Homeless(request) && request.id.Some? && FromClient(request)
    ensures accepted ==> running && lines != [] && lines[|lines| - 1] == RpcError(request, "request failed")
  {
    hide Valid, Requested, Certain, Unfit, HomelessParked, Grows, Adds, RestsBut;
    var broker := new Broker(native);
    InitialFacts(native);
    running := broker.TakeIn(start);
    accepted := Accepts(broker.s, reply) && |broker.s.backends| > 0;
    lines := [];
    if accepted {
      accepted := broker.Server(0, reply);
    }
    if accepted {
      running := broker.TakeIn(request);
      lines := broker.s.stdout;
    }
  }

  /** The shared server is closed before a project server resumes its thread; a reply it sent before it noticed
      ends the run. */
  method ReleasedReplyEndsTheRun(broker: Broker, thread: string, m: Message) returns (running: bool)
    requires Valid(broker.s) && m.Reply?
    requires thread in broker.s.threads && broker.s.common == Some(broker.s.threads[thread])
    modifies broker
    ensures !running
  {
    hide Valid, Heard, Certain, Unfit, HomelessParked, Shut, Served;
    var b := broker.s.threads[thread];
    ghost var was := broker.s;
    var ok := broker.ReleaseControlWriter(thread);
    ReleasedIsClosed(was, broker.s, thread);
    LateReplyIsFatal(broker.s, b, m);
    running := broker.Server(b, m);
  }
}
