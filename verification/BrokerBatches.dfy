/** Split requests, and the requests the servers make, as steps of the broker's state. */
module BrokerBatches {
  import opened Ledger
  import opened Messages
  import opened Options
  import opened BatchJoin
  import opened BrokerState
  import opened BrokerSteps

  /** What is in hand under a minted id is an open part of a split request. */
  lemma InHandIsOwed(s: State, id: Id)
    requires Balanced(s) && Named(s) && id in s.hand
    ensures id.Fresh? ==> id in s.batchRequests
    ensures id.Given? ==> id !in s.batchRequests
  {
    hide HeldIn, QueuedOk, BackendsPlain, PendingPlain, ActivationsPlain, BatchesPlain, AnswersOwn;
    assert (Held(s) + s.hand)[id] == (s.received + multiset(s.batchRequests.Keys))[id];
  }

  predicate IsPart(s: State, response: Message) {
    response.id.Some? && response.id.value in s.batchRequests
  }

  /** The replies to the split request that this part belongs to, this one included. */
  ghost function PartsWith(s: State, response: Message): seq<Message>
    requires IsPart(s, response) && s.batchRequests[response.id.value] in s.parts
  {
    s.parts[s.batchRequests[response.id.value]] + [response]
  }

  ghost predicate Joins(s: State, response: Message) {
    IsPart(s, response) ==>
      && s.batchRequests[response.id.value] in s.parts && s.batchRequests[response.id.value] in s.batches
      && Join(PartsWith(s, response)).Some?
  }

  /** The batch after one more reply. */
  function Next(batch: Batch, replies: seq<Message>): Batch
    requires batch.remaining > 0 && Join(replies).Some?
  {
    Batch(batch.original, batch.remaining - 1, Join(replies).value, LastError(replies))
  }

  /** A part that leaves others open is joined. */
  ghost function PartIn(s: State, response: Message): State
    requires IsPart(s, response) && Joins(s, response) && s.batches[s.batchRequests[response.id.value]].remaining > 1
  {
    var id := response.id.value;
    var group, replies := s.batchRequests[id], PartsWith(s, response);
    s.(batchRequests := s.batchRequests - {id}, batches := s.batches[group := Next(s.batches[group], replies)],
       parts := s.parts[group := replies], hand := s.hand - multiset{id})
  }

  /** The last part completes the split request, which is answered as a whole. */
  ghost function Completed(s: State, response: Message): State
    requires IsPart(s, response) && Joins(s, response)
  {
    var id := response.id.value;
    var group, replies := s.batchRequests[id], PartsWith(s, response);
    s.(batchRequests := s.batchRequests - {id}, batches := s.batches - {group}, parts := s.parts - {group},
       stdout := s.stdout + [BatchReply(s.batches[group].original, LastError(replies), Join(replies).value)],
       hand := s.hand - multiset{id})
  }

  ghost function Responded(s: State, response: Message): State
    requires Joins(s, response)
  {
    if !IsPart(s, response) then Printed(s, response)
    else if s.batches[s.batchRequests[response.id.value]].remaining > 1 then PartIn(s, response)
    else Completed(s, response)
  }

  lemma OneLessOpen(batchRequests: map<Id, Id>, id: Id)
    requires id in batchRequests
    ensures |Open(batchRequests - {id}, batchRequests[id])| == |Open(batchRequests, batchRequests[id])| - 1
    ensures forall g :: g != batchRequests[id] ==> Open(batchRequests - {id}, g) == Open(batchRequests, g)
    ensures |Open(batchRequests, batchRequests[id])| == 1 ==>
      forall k :: k in batchRequests && batchRequests[k] == batchRequests[id] ==> k == id
  {
    var g := batchRequests[id];
    assert Open(batchRequests - {id}, g) == Open(batchRequests, g) - {id};
    if |Open(batchRequests, g)| == 1 {
      OnlyOne(Open(batchRequests, g), id);
      forall k | k in batchRequests && batchRequests[k] == g
        ensures k == id
      {
        assert k in Open(batchRequests, g);
      }
    }
  }

  lemma OnlyOne(ids: set<Id>, id: Id)
    requires id in ids && |ids| <= 1
    ensures ids == {id}
  {
    assert |ids - {id}| == 0;
  }

  lemma NextOk(batch: Batch, open: set<Id>, fewer: set<Id>, unissued: nat, replies: seq<Message>, response: Message)
    requires BatchOk(batch, open, unissued, replies) && |fewer| == |open| - 1 && batch.remaining > 1
    requires Join(replies + [response]).Some?
    ensures BatchOk(Next(batch, replies + [response]), fewer, unissued, replies + [response])
  {
  }

  lemma PartJoined(batches: map<Id, Batch>, batchRequests: map<Id, Id>, parts: map<Id, seq<Message>>,
                   issuing: Option<Id>, left: nat, id: Id, response: Message)
    requires Batching(batches, batchRequests, parts, issuing, left) && id in batchRequests
    requires batches[batchRequests[id]].remaining > 1 && Join(parts[batchRequests[id]] + [response]).Some?
    ensures var group := batchRequests[id]; var replies := parts[group] + [response];
            Batching(batches[group := Next(batches[group], replies)], batchRequests - {id}, parts[group := replies],
                     issuing, left)
  {
    hide BatchOk, Join, LastError, Open, Next;
    var group := batchRequests[id];
    OneLessOpen(batchRequests, id);
    NextOk(batches[group], Open(batchRequests, group), Open(batchRequests - {id}, group),
           if issuing == Some(group) then left else 0, parts[group], response);
  }

  lemma PartCompleted(batches: map<Id, Batch>, batchRequests: map<Id, Id>, parts: map<Id, seq<Message>>,
                      issuing: Option<Id>, left: nat, id: Id)
    requires Batching(batches, batchRequests, parts, issuing, left) && id in batchRequests
    requires batches[batchRequests[id]].remaining <= 1
    ensures var group := batchRequests[id];
            Batching(batches - {group}, batchRequests - {id}, parts - {group}, issuing, left)
  {
    hide Open;
    var group := batchRequests[id];
    OneLessOpen(batchRequests, id);
    assert BatchOk(batches[group], Open(batchRequests, group), if issuing == Some(group) then left else 0,
                     parts[group]);
  }

  /** What is removed from hand and from the open parts at once stays balanced. */
  lemma PartSettled(s: State, t: State, id: Id)
    requires Balanced(s) && id in s.hand && id in s.batchRequests
    requires Held(t) == Held(s) && t.received == s.received
    requires t.hand == s.hand - multiset{id} && t.batchRequests == s.batchRequests - {id}
    ensures Balanced(t)
  {
    hide Held;
    assert t.batchRequests.Keys == s.batchRequests.Keys - {id};
    forall x: Id
      ensures (Held(t) + t.hand)[x] == (t.received + multiset(t.batchRequests.Keys))[x]
    {
      assert (Held(s) + s.hand)[x] == (s.received + multiset(s.batchRequests.Keys))[x];
    }
  }

  lemma JoinedBooks(s: State, response: Message)
    requires Balanced(s) && Named(s) && IsPart(s, response) && response.id.value in s.hand && Joins(s, response)
    requires s.batches[s.batchRequests[response.id.value]].remaining > 1
    ensures Balanced(PartIn(s, response)) && Named(PartIn(s, response))
  {
    hide HeldIn, Balanced, QueuedOk, BackendsPlain, PendingPlain, ActivationsPlain, AnswersOwn, Join, LastError;
    var t, group := PartIn(s, response), s.batchRequests[response.id.value];
    HeldSameBatch(s, group, t.batches[group]);
    assert Held(t) == Held(s.(batches := t.batches));
    PartSettled(s, t, response.id.value);
    assert t.batchRequests.Keys <= s.batchRequests.Keys && t.batches.Keys == s.batches.Keys;
  }

  lemma CompletedBooks(s: State, response: Message)
    requires Balanced(s) && Named(s) && IsPart(s, response) && response.id.value in s.hand && Joins(s, response)
    ensures Balanced(Completed(s, response)) && Named(Completed(s, response))
  {
    hide HeldIn, Balanced, QueuedOk, BackendsPlain, PendingPlain, ActivationsPlain, Join, LastError;
    var t, group := Completed(s, response), s.batchRequests[response.id.value];
    var u, reply := s.(batches := t.batches), t.stdout[|s.stdout|];
    HeldJoined(s, group);
    HeldPrinted(u, reply);
    assert Held(t) == Held(u.(stdout := t.stdout));
    PartSettled(s, t, response.id.value);
    assert t.batchRequests.Keys <= s.batchRequests.Keys && t.batches.Keys <= s.batches.Keys;
  }

  lemma PrintedBooks(s: State, response: Message)
    requires Balanced(s) && Named(s) && response.Reply? && !IsPart(s, response) && IdOf(response) <= s.hand
    ensures Balanced(Printed(s, response)) && Named(Printed(s, response))
  {
    hide Balanced, Named;
    if response.id.Some? {
      assert response.id.value in s.hand;
      InHandIsOwed(s, response.id.value);
    }
    PrintedKeeps(s, response);
  }

  lemma RespondedKeeps(s: State, response: Message, issuing: Option<Id>, left: nat)
    requires Balanced(s) && Named(s) && response.Reply? && Joins(s, response) && IdOf(response) <= s.hand
    requires Batching(s.batches, s.batchRequests, s.parts, issuing, left)
    ensures var t := Responded(s, response);
            Balanced(t) && Named(t) && Batching(t.batches, t.batchRequests, t.parts, issuing, left)
  {
    hide Balanced, Named, Batching, Join, PartsWith, PartIn, Completed, Printed;
    if !IsPart(s, response) {
      PrintedBooks(s, response);
      PrintedBatches(s, response);
    } else {
      var id := response.id.value;
      assert id in s.hand;
      if s.batches[s.batchRequests[id]].remaining > 1 {
        JoinedBooks(s, response);
        PartBatching(s, response, issuing, left);
      } else {
        CompletedBooks(s, response);
        CompletedBatching(s, response, issuing, left);
      }
    }
  }

  lemma PrintedBatches(s: State, m: Message)
    ensures var t := Printed(s, m); t.batches == s.batches && t.batchRequests == s.batchRequests && t.parts == s.parts
  {
  }

  lemma PartBatching(s: State, response: Message, issuing: Option<Id>, left: nat)
    requires Batching(s.batches, s.batchRequests, s.parts, issuing, left)
    requires IsPart(s, response) && Joins(s, response)
    requires s.batches[s.batchRequests[response.id.value]].remaining > 1
    ensures var t := PartIn(s, response); Batching(t.batches, t.batchRequests, t.parts, issuing, left)
  {
    hide Batching, Join, LastError, Next;
    PartJoined(s.batches, s.batchRequests, s.parts, issuing, left, response.id.value, response);
  }

  lemma CompletedBatching(s: State, response: Message, issuing: Option<Id>, left: nat)
    requires Batching(s.batches, s.batchRequests, s.parts, issuing, left)
    requires IsPart(s, response) && Joins(s, response)
    requires s.batches[s.batchRequests[response.id.value]].remaining <= 1
    ensures var t := Completed(s, response); Batching(t.batches, t.batchRequests, t.parts, issuing, left)
  {
    hide Batching, Join, LastError, BatchReply;
    PartCompleted(s.batches, s.batchRequests, s.parts, issuing, left, response.id.value);
  }

  /** A step that only prints and counts leaves the servers alone. */
  lemma RestSame(s: State, t: State)
    requires Core(s) && Balanced(t) && Named(t)
    requires t == s.(hand := t.hand, stdout := t.stdout, batches := t.batches, batchRequests := t.batchRequests,
                     parts := t.parts)
    ensures Core(t)
  {
    hide Balanced, Named;
    hide StateOk, ProjectsOk, OwnersOk, ReadyOk, ActivationsOk, QuestionsOk, OwnersKnown, LogOk, Within;
  }

  /** A request for several directories is split. */
  function Split(s: State, original: Message, count: nat): State {
    var group := Fresh(s.minted);
    s.(minted := s.minted + 1, batches := s.batches[group := Batch(original, count, map[], None)],
       parts := s.parts[group := []], hand := s.hand - IdOf(original))
  }

  lemma SplitKeeps(s: State, original: Message)
    requires Core(s) && FromClient(original) && IdOf(original) <= s.hand
    requires original.Call? && original.cwds.Some? && |original.cwds.value| > 0
    requires Batching(s.batches, s.batchRequests, s.parts, None, 0)
    ensures var t := Split(s, original, |original.cwds.value|);
            Core(t) && Batching(t.batches, t.batchRequests, t.parts, Some(Fresh(s.minted)), |original.cwds.value|)
  {
    hide HeldIn, StateOk, ProjectsOk, OwnersOk, ReadyOk, ActivationsOk, QuestionsOk, OwnersKnown, LogOk, Within;
    hide QueuedOk, BackendsPlain, PendingPlain, ActivationsPlain, AnswersOwn, Balanced, MintedBefore, Batching;
    var group, t := Fresh(s.minted), Split(s, original, |original.cwds.value|);
    MintedLonger(s.pending.Keys, s.minted);
    MintedLonger(s.batches.Keys, s.minted);
    MintedLonger(s.batchRequests.Keys, s.minted);
    MintedLonger(s.replies.Keys, s.minted);
    assert t.batches.Keys == s.batches.Keys + {group};
    HeldBatch(s, group, t.batches[group]);
    assert Held(t) == Held(s.(batches := t.batches));
    Placed(s, t, IdOf(original));
    NewGroup(s.batches, s.batchRequests, s.parts, group, original);
  }

  lemma NewGroup(batches: map<Id, Batch>, batchRequests: map<Id, Id>, parts: map<Id, seq<Message>>,
                 group: Id, original: Message)
    requires Batching(batches, batchRequests, parts, None, 0) && group !in batches
    requires original.Call? && original.cwds.Some? && |original.cwds.value| > 0
    ensures Batching(batches[group := Batch(original, |original.cwds.value|, map[], None)], batchRequests,
                     parts[group := []], Some(group), |original.cwds.value|)
  {
    assert Open(batchRequests, group) == {};
  }

  /** One part of a split request is issued under a fresh id. */
  function Issued(s: State, group: Id): State {
    var id := Fresh(s.minted);
    s.(minted := s.minted + 1, batchRequests := s.batchRequests[id := group], hand := s.hand + multiset{id})
  }

  lemma IssuedKeeps(s: State, group: Id, left: nat)
    requires Core(s) && group in s.batches && left > 0
    requires Batching(s.batches, s.batchRequests, s.parts, Some(group), left)
    ensures var t := Issued(s, group);
            Core(t) && Batching(t.batches, t.batchRequests, t.parts, Some(group), left - 1)
  {
    hide HeldIn, StateOk, ProjectsOk, OwnersOk, ReadyOk, ActivationsOk, QuestionsOk, OwnersKnown, LogOk, Within;
    hide Balanced, Named, Batching;
    IssuedNames(s, group);
    IssuedBalances(s, group);
    IssuedPart(s.batches, s.batchRequests, s.parts, group, left, Fresh(s.minted));
  }

  lemma IssuedNames(s: State, group: Id)
    requires Named(s)
    ensures Named(Issued(s, group)) && Fresh(s.minted) !in s.batchRequests
  {
    hide QueuedOk, BackendsPlain, PendingPlain, ActivationsPlain, AnswersOwn, MintedBefore, BatchesPlain;
    MintedLonger(s.pending.Keys, s.minted);
    MintedLonger(s.batches.Keys, s.minted);
    MintedLonger(s.batchRequests.Keys, s.minted);
    MintedLonger(s.replies.Keys, s.minted);
    assert Issued(s, group).batchRequests.Keys == s.batchRequests.Keys + {Fresh(s.minted)};
  }

  lemma IssuedBalances(s: State, group: Id)
    requires Balanced(s) && Fresh(s.minted) !in s.batchRequests
    ensures Balanced(Issued(s, group))
  {
    hide HeldIn;
    var t := Issued(s, group);
    assert t.batchRequests.Keys == s.batchRequests.Keys + {Fresh(s.minted)};
    forall x: Id
      ensures (Held(t) + t.hand)[x] == (t.received + multiset(t.batchRequests.Keys))[x]
    {
      assert (Held(s) + s.hand)[x] == (s.received + multiset(s.batchRequests.Keys))[x];
    }
  }

  lemma IssuedPart(batches: map<Id, Batch>, batchRequests: map<Id, Id>, parts: map<Id, seq<Message>>,
                   group: Id, left: nat, id: Id)
    requires Batching(batches, batchRequests, parts, Some(group), left)
    requires left > 0 && group in batches && id !in batchRequests
    ensures Batching(batches, batchRequests[id := group], parts, Some(group), left - 1)
  {
    hide Join, LastError, Open;
    OneMoreOpen(batchRequests, id, group);
    forall g | g in batches
      ensures BatchOk(batches[g], Open(batchRequests[id := group], g), if group == g then left - 1 else 0, parts[g])
    {
      assert BatchOk(batches[g], Open(batchRequests, g), if group == g then left else 0, parts[g]);
    }
  }

  lemma OneMoreOpen(batchRequests: map<Id, Id>, id: Id, group: Id)
    requires id !in batchRequests
    ensures |Open(batchRequests[id := group], group)| == |Open(batchRequests, group)| + 1
    ensures forall g :: g != group ==> Open(batchRequests[id := group], g) == Open(batchRequests, g)
  {
    assert Open(batchRequests[id := group], group) == Open(batchRequests, group) + {id};
  }

  // Requests the servers make.

  /** A server asks the client something, under a fresh id. */
  function AskedBy(s: State, b: nat, id: Id): State {
    s.(minted := s.minted + 1, replies := s.replies[Fresh(s.minted) := Asked(b, id)],
       asked := s.asked + multiset{(b, id)})
  }

  lemma AskedKeeps(s: State, b: nat, id: Id)
    requires Core(s) && b < |s.backends|
    ensures Core(AskedBy(s, b, id))
  {
    hide HeldIn, StateOk, ProjectsOk, OwnersOk, ReadyOk, ActivationsOk, LogOk, Within, Sum, Tally;
    hide QueuedOk, BackendsPlain, PendingPlain, ActivationsPlain, AnswersOwn, Balanced, MintedBefore, BatchesPlain;
    MintedLonger(s.pending.Keys, s.minted);
    MintedLonger(s.batches.Keys, s.minted);
    MintedLonger(s.batchRequests.Keys, s.minted);
    MintedLonger(s.replies.Keys, s.minted);
    var t := AskedBy(s, b, id);
    assert t.replies.Keys == s.replies.Keys + {Fresh(s.minted)};
    assert Balanced(t) by { Placed(s, t, multiset{}); }
    TallyWith(s.replies, Fresh(s.minted), Asked(b, id), AskedPair);
  }

  /** The client's answer goes back under the id the server chose. */
  function AnsweredTo(s: State, key: Id, response: Message): State
    requires key in s.replies
  {
    var asked := s.replies[key];
    s.(replies := s.replies - {key},
       written := s.written + [Line(asked.owner, Answer, WithId(response, Some(asked.id)))])
  }

  lemma AnsweredKeeps(s: State, key: Id, response: Message)
    requires Core(s) && key in s.replies && response.Reply?
    ensures Core(AnsweredTo(s, key, response))
  {
    hide HeldIn, StateOk, ProjectsOk, OwnersOk, ReadyOk, ActivationsOk, LogOk, Within, Sum, Tally;
    hide QueuedOk, BackendsPlain, PendingPlain, ActivationsPlain, AnswersOwn, BatchesPlain;
    var asked := s.replies[key];
    var line := Line(asked.owner, Answer, WithId(response, Some(asked.id)));
    var t := AnsweredTo(s, key, response);
    assert t.replies.Keys <= s.replies.Keys;
    TallyWithout(s.replies, key, AskedPair);
    SumPush(s.written, line, ReturnedPair);
    LogGrows(s.written, s.backends, line);
  }
}
