/** What the end of a server takes with it. */
module BrokerClosing {
  import opened Ledger
  import opened Messages
  import opened Options
  import opened BrokerState
  import opened BrokerSteps

  function Cleared(role: Option<nat>, b: nat): Option<nat> {
    if role == Some(b) then None else role
  }

  function Others(table: map<string, nat>, b: nat): map<string, nat> {
    map key | key in table && table[key] != b :: table[key]
  }

  function OwnedBy(pending: map<Id, Pending>, b: nat): set<Id> {
    set id | id in pending && pending[id].owner == b
  }

  function AskedFrom(replies: map<Id, Asked>, b: nat): set<Id> {
    set id | id in replies && replies[id].owner == b
  }

  function Dead(backend: Backend): Backend {
    backend.(live := false, queue := [])
  }

  ghost function DroppedWith(s: State, b: nat): multiset<(nat, Id)> {
    Tally(Restrict(s.replies, AskedFrom(s.replies, b)), AskedPair)
  }

  /** Everything of server `b` is gone; the requests it had are in hand. */
  ghost function Shut(s: State, b: nat): State
    requires b < |s.backends|
  {
    s.(host := Cleared(s.host, b), common := Cleared(s.common, b),
       backends := s.backends[b := Dead(s.backends[b])],
       replies := s.replies - AskedFrom(s.replies, b), dropped := s.dropped + DroppedWith(s, b),
       projects := Others(s.projects, b), threads := Others(s.threads, b), activeTurns := Others(s.activeTurns, b),
       pending := s.pending - OwnedBy(s.pending, b), activations := s.activations - {b}, opening := None)
  }

  lemma ShutRoles(r: Roles, backends: seq<Backend>, pending: map<Id, Pending>,
                  activations: map<nat, seq<Activation>>, b: nat)
    requires b < |backends| && (r.opening.None? || r.opening == Some(b))
    requires ProjectsOk(r, backends, pending) && OwnersOk(r, backends, pending)
    requires ReadyOk(r, backends) && ActivationsOk(r, backends, activations)
    ensures var q := Roles(Others(r.projects, b), Cleared(r.host, b), Cleared(r.common, b), None);
            var after := backends[b := Dead(backends[b])];
            && ProjectsOk(q, after, pending - OwnedBy(pending, b)) && OwnersOk(q, after, pending - OwnedBy(pending, b))
            && ReadyOk(q, after) && ActivationsOk(q, after, activations - {b})
  {
    hide Initializes;
    var q := Roles(Others(r.projects, b), Cleared(r.host, b), Cleared(r.common, b), None);
    var after, others := backends[b := Dead(backends[b])], pending - OwnedBy(pending, b);
    forall i: nat | i != b && InitPending(pending, i)
      ensures InitPending(others, i)
    {
      var k :| k in pending && pending[k] == Pending(i, ForInitialize);
      assert k in others && others[k] == Pending(i, ForInitialize);
    }
    assert forall i: nat :: i != b && IsProject(r, backends, i) ==> IsProject(q, after, i);
    hide InitPending, IsProject;
    forall id | id in others
      ensures OwnerOk(q, after, others[id])
    {
      assert OwnerOk(r, backends, pending[id]);
    }
    forall i | 0 <= i < |after| && after[i].live && after[i].ready
      ensures Attached(q, after, i)
    {
      assert Attached(r, backends, i);
    }
  }

  lemma ShutState(s: State, b: nat)
    requires StateOk(RolesOf(s), s.backends) && b < |s.backends|
    ensures StateOk(RolesOf(Shut(s, b)), Shut(s, b).backends)
  {
    hide RunsThread;
  }

  lemma ShutLog(s: State, b: nat)
    requires Logged(s) && b < |s.backends|
    ensures Logged(Shut(s, b))
  {
    hide Greeted, RunsThread;
    forall i | 0 <= i < |s.written|
      ensures LineOk(s.written, i, Shut(s, b).backends)
    {
      assert LineOk(s.written, i, s.backends);
    }
  }

  lemma ShutQuestions(s: State, b: nat)
    requires Asking(s) && b < |s.backends|
    ensures Asking(Shut(s, b))
  {
    hide Sum, Tally;
    var gone := AskedFrom(s.replies, b);
    TallySplit(s.replies, gone, AskedPair);
    forall p | p in DroppedWith(s, b)
      ensures p.0 == b
    {
      var k := TallyMember(Restrict(s.replies, gone), AskedPair, p);
    }
  }

  lemma ShutKeeps(s: State, b: nat)
    requires Core(s) && b < |s.backends| && (s.opening.None? || s.opening == Some(b))
    ensures Routed(Shut(s, b)) && Known(Shut(s, b)) && Asking(Shut(s, b)) && Logged(Shut(s, b))
  {
    hide Balanced, Named, StateOk, ProjectsOk, OwnersOk, ReadyOk, ActivationsOk, QuestionsOk, OwnersKnown, LogOk;
    hide DroppedWith;
    ShutRoles(RolesOf(s), s.backends, s.pending, s.activations, b);
    ShutState(s, b);
    ShutLog(s, b);
    ShutQuestions(s, b);
  }

  /** One entry is taken into hand, whatever the rest of the state is up to. */
  lemma TakenEntry(s: State, id: Id)
    requires Balanced(s) && Named(s) && id in s.pending
    ensures var t := s.(pending := s.pending - {id}, hand := s.hand + PendingId(s.pending[id]));
            Balanced(t) && Named(t)
    ensures PlainWait(s.pending[id].waiting)
  {
    hide HeldIn, PlainWait, QueuedOk, BackendsPlain, ActivationsPlain, BatchesPlain, AnswersOwn, Balanced;
    var t := s.(pending := s.pending - {id}, hand := s.hand + PendingId(s.pending[id]));
    HeldSettled(s, id);
    assert Held(t) == Held(s.(pending := t.pending));
    Taken(s, t, PendingId(s.pending[id]));
    assert t.pending.Keys <= s.pending.Keys;
  }

  lemma TakenWaiters(s: State, b: nat)
    requires Balanced(s) && Named(s)
    ensures var t := s.(activations := s.activations - {b}, hand := s.hand + ActivationIds(Waiters(s, b)));
            Balanced(t) && Named(t)
    ensures AllPlain(Waiters(s, b))
  {
    hide HeldIn, QueuedOk, BackendsPlain, PendingPlain, BatchesPlain, AnswersOwn, MintedBefore, Balanced, Sum;
    var t := s.(activations := s.activations - {b}, hand := s.hand + ActivationIds(Waiters(s, b)));
    if b in s.activations {
      HeldStarted(s, b);
    } else {
      assert t.activations == s.activations;
      PushedActivation([], Activation(GREETING, GREETING));
    }
    assert Held(t) == Held(s.(activations := t.activations));
    Taken(s, t, ActivationIds(Waiters(s, b)));
  }

  lemma TakenQueue(s: State, b: nat)
    requires Balanced(s) && Named(s) && b < |s.backends|
    ensures var t := Drained(s, b).(hand := s.hand + QueueIds(s.backends[b]));
            Balanced(t) && Named(t)
    ensures QueuePlain(s.backends[b].queue)
  {
    hide HeldIn, QueuedOk, PendingPlain, ActivationsPlain, BatchesPlain, AnswersOwn, MintedBefore, Balanced, QueueIds;
    DrainedBalances(s, b);
  }

  /** The unguarded half of closing: the tables forget the server at once. */
  ghost function Unlinked(s: State, b: nat): State
    requires b < |s.backends|
  {
    s.(host := Cleared(s.host, b), common := Cleared(s.common, b),
       backends := s.backends[b := s.backends[b].(live := false)],
       replies := s.replies - AskedFrom(s.replies, b), dropped := s.dropped + DroppedWith(s, b),
       projects := Others(s.projects, b), threads := Others(s.threads, b), activeTurns := Others(s.activeTurns, b),
        opening := None)
  }

  lemma UnlinkedBooks(s: State, b: nat)
    requires Balanced(s) && Named(s) && b < |s.backends|
    ensures Balanced(Unlinked(s, b)) && Named(Unlinked(s, b))
  {
    hide HeldIn, QueuedOk, PendingPlain, ActivationsPlain, BatchesPlain, AnswersOwn, DroppedWith, Balanced, QueueIds;
    var t := Unlinked(s, b);
    HeldSameQueue(s, b, s.backends[b].(live := false));
    assert Held(t) == Held(s.(backends := t.backends));
    Placed(s, t, multiset{});
    assert t.replies.Keys <= s.replies.Keys;
  }

  /** Every request the server had. */
  ghost function Owned(s: State, b: nat): multiset<Id>
    requires b < |s.backends|
  {
    Tally(Restrict(s.pending, OwnedBy(s.pending, b)), PendingId) + ActivationIds(Waiters(s, b))
    + QueueIds(s.backends[b])
  }

  /** What counts as answered: replies printed, and split requests no longer open. */
  ghost function Answered(s: State, x: Id): int {
    Sum(s.stdout, AnswerOf)[x] + Tally(s.batches, BatchId)[x]
  }

  /** Whatever was printed since is an error reply. */
  ghost predicate OnlyErrors(before: seq<Message>, after: seq<Message>) {
    && before <= after
    && forall i :: |before| <= i < |after| ==> after[i].Reply? && after[i].error.Some?
  }

  /** Only error replies, and the progress of split requests, separate the two states. */
  ghost predicate Replied(s: State, t: State) {
    && t == s.(stdout := t.stdout, batches := t.batches, batchRequests := t.batchRequests, parts := t.parts)
    && OnlyErrors(s.stdout, t.stdout)
  }

  lemma WaitersGone(s: State, b: nat)
    ensures Tally(s.activations, ActivationIds)
         == Tally(s.activations - {b}, ActivationIds) + ActivationIds(Waiters(s, b))
  {
    hide Tally;
    if b in s.activations {
      TallyWithout(s.activations, b, ActivationIds);
    } else {
      assert s.activations - {b} == s.activations;
    }
  }

  lemma QueueGone(backends: seq<Backend>, b: nat)
    requires b < |backends|
    ensures Sum(backends, QueueIds) == Sum(backends[b := Dead(backends[b])], QueueIds) + QueueIds(backends[b])
  {
    SumUpdate(backends, b, Dead(backends[b]), QueueIds);
    EmptyQueue(Dead(backends[b]));
  }

  lemma ShutHeld(s: State, t: State, b: nat)
    requires b < |s.backends| && Replied(Shut(s, b), t)
    ensures forall x: Id ::
      Held(s)[x] - Owned(s, b)[x] - Answered(s, x) == Held(t)[x] - Answered(t, x)
  {
    hide Sum, Tally, OnlyErrors, ActivationIds, QueueIds, OwnedBy, Waiters, DroppedWith, Dead, Others;
    TallySplit(s.pending, OwnedBy(s.pending, b), PendingId);
    WaitersGone(s, b);
    QueueGone(s.backends, b);
  }

  lemma EmptyQueue(backend: Backend)
    requires backend.queue == []
    ensures QueueIds(backend) == multiset{}
  {
  }

  /** Each request of the server is answered once, directly or as the last part of its split request. */
  lemma AllAnswered(s: State, t: State, b: nat)
    requires Balanced(s) && Named(s) && Balanced(t) && Named(t) && b < |s.backends| && Replied(Shut(s, b), t)
    ensures forall x: Id :: x.Given? ==> Answered(t, x) == Answered(s, x) + Owned(s, b)[x]
  {
    hide HeldIn, Owned, Answered, OnlyErrors, QueuedOk, BackendsPlain, PendingPlain, ActivationsPlain, BatchesPlain;
    hide AnswersOwn;
    ShutHeld(s, t, b);
    forall x: Id | x.Given?
      ensures Answered(t, x) == Answered(s, x) + Owned(s, b)[x]
    {
      assert (Held(s) + s.hand)[x] == (s.received + multiset(s.batchRequests.Keys))[x];
      assert (Held(t) + t.hand)[x] == (t.received + multiset(t.batchRequests.Keys))[x];
    }
  }

  lemma {:induction false} OriginalIds(waiting: seq<Activation>)
    ensures ActivationIds(waiting) == Sum(seq(|waiting|, i requires 0 <= i < |waiting| => waiting[i].original), IdOf)
  {
    if waiting != [] {
      var most := waiting[..|waiting| - 1];
      OriginalIds(most);
      var originals := seq(|waiting|, i requires 0 <= i < |waiting| => waiting[i].original);
      assert originals[..|most|] == seq(|most|, i requires 0 <= i < |most| => most[i].original);
    }
  }

  lemma RepliedNothing(s: State)
    ensures Replied(s, s)
  {
  }

  lemma RepliedHand(s: State, t: State, u: State, ids: multiset<Id>)
    requires Replied(s, t) && Replied(t.(hand := t.hand - ids), u)
    ensures Replied(s.(hand := s.hand - ids), u)
  {
  }

  lemma RepliedPending(s: State, t: State, u: State, gone: set<Id>)
    requires Replied(s, t) && Replied(t.(pending := t.pending - gone), u)
    ensures Replied(s.(pending := s.pending - gone), u)
  {
  }

  lemma RepliedWaiters(s: State, t: State, u: State, b: nat)
    requires Replied(s, t) && Replied(t.(activations := t.activations - {b}), u)
    ensures Replied(s.(activations := s.activations - {b}), u)
  {
  }

  lemma RepliedQueue(s: State, t: State, u: State, b: nat)
    requires b < |s.backends| && Replied(s, t) && Replied(Drained(t, b), u)
    ensures Replied(Drained(s, b), u)
  {
  }

  lemma BooksOf(s: State)
    requires Core(s)
    ensures Balanced(s) && Named(s)
  {
  }
}
