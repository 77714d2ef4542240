/** The elementary steps of the broker as functions of its state, and what each keeps. */
module BrokerSteps {
  import opened Ledger
  import opened Messages
  import opened Options
  import opened BrokerState

  /** What the broker sends to acknowledge a handshake. */
  const GREETING: Message := Call(None, Initialized, None, None, None, None, "")

  /** What was in hand is put somewhere. */
  lemma Placed(s: State, t: State, ids: multiset<Id>)
    requires Balanced(s) && ids <= s.hand && t.hand == s.hand - ids
    requires Held(t) == Held(s) + ids
    requires t.received == s.received && t.batchRequests.Keys == s.batchRequests.Keys
    ensures Balanced(t)
  {
    hide Held;
  }

  /** What was somewhere is taken into hand. */
  lemma Taken(s: State, t: State, ids: multiset<Id>)
    requires Balanced(s) && t.hand == s.hand + ids
    requires Held(s) == Held(t) + ids
    requires t.received == s.received && t.batchRequests.Keys == s.batchRequests.Keys
    ensures Balanced(t)
  {
    hide Held;
  }

  lemma MintedLonger(ids: set<Id>, minted: nat)
    requires MintedBefore(ids, minted)
    ensures MintedBefore(ids, minted + 1) && MintedBefore(ids + {Fresh(minted)}, minted + 1)
    ensures Fresh(minted) !in ids
  {
  }

  /** Printing a line for the client; a reply settles what was in hand. */
  function Printed(s: State, m: Message): State {
    s.(stdout := s.stdout + [m], hand := s.hand - AnswerOf(m))
  }

  lemma PrintedKeeps(s: State, m: Message)
    requires Balanced(s) && Named(s) && AnswerOf(m) <= s.hand && (m.Reply? ==> FromClient(m))
    ensures Balanced(Printed(s, m)) && Named(Printed(s, m))
    ensures Core(s) ==> Core(Printed(s, m))
  {
    hide HeldIn, StateOk, ProjectsOk, OwnersOk, ReadyOk, ActivationsOk, QuestionsOk, OwnersKnown, LogOk, Within;
    hide MintedBefore, QueuedOk, BackendsPlain, PendingPlain, ActivationsPlain, BatchesPlain;
    HeldPrinted(s, m);
  }

  /** One line written to a server that is not an answer to it. */
  function Sent(s: State, line: Line): State {
    s.(written := s.written + [line])
  }

  ghost predicate MaySend(backends: seq<Backend>, line: Line) {
    && line.to < |backends|
    && (RunsThread(line.message) ==> backends[line.to].workspace.Some?)
    && (AfterHandshake(line.via) ==> backends[line.to].ready)
  }

  lemma LogGrows(written: seq<Line>, backends: seq<Backend>, line: Line)
    requires LogOk(written, backends) && MaySend(backends, line)
    ensures LogOk(written + [line], backends)
  {
    hide RunsThread;
    var longer := written + [line];
    forall i | 0 <= i < |longer|
      ensures LineOk(longer, i, backends)
    {
      if i < |written| {
        assert LineOk(written, i, backends);
        assert longer[..i] == written[..i];
      } else {
        assert longer[..i] == written;
      }
    }
    forall b | 0 <= b < |backends| && Greeted(written, b)
      ensures Greeted(longer, b)
    {
      var j :| 0 <= j < |written| && written[j].to == b && written[j].via.Greeting?;
      assert longer[j] == written[j];
    }
  }

  lemma SentKeeps(s: State, line: Line)
    requires Core(s) && MaySend(s.backends, line) && !line.via.Answer?
    ensures Core(Sent(s, line))
  {
    hide HeldIn, StateOk, ProjectsOk, OwnersOk, ReadyOk, ActivationsOk, OwnersKnown, LogOk, Within, Named;
    hide Sum, Tally, MaySend;
    SumPush(s.written, line, ReturnedPair);
    LogGrows(s.written, s.backends, line);
    SameNames(s, Sent(s, line));
  }

  lemma SameNames(s: State, t: State)
    requires Named(s)
    requires t.backends == s.backends && t.activations == s.activations && t.batches == s.batches
    requires t.batchRequests == s.batchRequests && t.replies == s.replies && t.received == s.received
    requires t.minted == s.minted
    requires t.clientQueue == s.clientQueue && t.pending == s.pending && t.stdout == s.stdout
    ensures Named(t)
  {
  }

  /** One more UUID is minted. */
  function Minting(s: State): State {
    s.(minted := s.minted + 1)
  }

  lemma MintingKeeps(s: State)
    requires Core(s)
    ensures Core(Minting(s))
    ensures var id := Fresh(s.minted);
            id !in s.pending && id !in s.batches && id !in s.batchRequests && id !in s.replies
  {
    hide HeldIn, StateOk, ProjectsOk, OwnersOk, ReadyOk, ActivationsOk, QuestionsOk, OwnersKnown, LogOk, Within;
    hide QueuedOk, BackendsPlain, PendingPlain, ActivationsPlain, BatchesPlain, AnswersOwn;
  }

  /** A request under way: written under a fresh id, its original waiting for the reply. */
  function Requested(s: State, b: nat, via: Via, message: Message, waiting: Waiting): State {
    var id := Fresh(s.minted);
    s.(minted := s.minted + 1,
       pending := s.pending[id := Pending(b, waiting)],
       written := s.written + [Line(b, via, WithId(message, Some(id)))],
       hand := s.hand - OriginalOf(waiting))
  }

  ghost predicate MayRequest(s: State, b: nat, via: Via, message: Message, waiting: Waiting) {
    && message.Call? && !via.Answer?
    && MaySend(s.backends, Line(b, via, message))
    && OwnerOk(RolesOf(s), s.backends, Pending(b, waiting))
    && PlainWait(waiting) && OriginalOf(waiting) <= s.hand
    && s.initialize.Some?
  }

  lemma PendingGrows(r: Roles, backends: seq<Backend>, pending: map<Id, Pending>, id: Id, entry: Pending)
    requires OwnersOk(r, backends, pending) && ProjectsOk(r, backends, pending) && PendingPlain(pending)
    requires id !in pending && OwnerOk(r, backends, entry) && PlainWait(entry.waiting)
    ensures OwnersOk(r, backends, pending[id := entry])
    ensures ProjectsOk(r, backends, pending[id := entry])
    ensures PendingPlain(pending[id := entry])
  {
    hide Attached, IsProject, OwnerOk, PlainWait;
    forall b | InitPending(pending, b)
      ensures InitPending(pending[id := entry], b)
    {
      var k :| k in pending && pending[k] == Pending(b, ForInitialize);
      assert k in pending[id := entry] && pending[id := entry][k] == Pending(b, ForInitialize);
    }
  }

  lemma RequestedBalances(s: State, b: nat, via: Via, message: Message, waiting: Waiting)
    requires Balanced(s) && Fresh(s.minted) !in s.pending && OriginalOf(waiting) <= s.hand
    ensures Balanced(Requested(s, b, via, message, waiting))
  {
    hide HeldIn, Balanced;
    var id, t := Fresh(s.minted), Requested(s, b, via, message, waiting);
    HeldPending(s, id, Pending(b, waiting));
    assert Held(t) == Held(s.(pending := s.pending[id := Pending(b, waiting)]));
    Placed(s, t, OriginalOf(waiting));
  }

  lemma RequestedNames(s: State, b: nat, via: Via, message: Message, waiting: Waiting)
    requires Named(s) && PendingPlain(s.pending[Fresh(s.minted) := Pending(b, waiting)])
    ensures Named(Requested(s, b, via, message, waiting))
  {
    hide QueuedOk, BackendsPlain, PendingPlain, ActivationsPlain, BatchesPlain, AnswersOwn, MintedBefore;
    MintedLonger(s.pending.Keys, s.minted);
    MintedLonger(s.batches.Keys, s.minted);
    MintedLonger(s.batchRequests.Keys, s.minted);
    MintedLonger(s.replies.Keys, s.minted);
    assert Requested(s, b, via, message, waiting).pending.Keys == s.pending.Keys + {Fresh(s.minted)};
  }

  lemma RequestedKeeps(s: State, b: nat, via: Via, message: Message, waiting: Waiting)
    requires Core(s) && MayRequest(s, b, via, message, waiting)
    ensures Core(Requested(s, b, via, message, waiting))
  {
    hide StateOk, ProjectsOk, OwnersOk, ReadyOk, ActivationsOk, OwnersKnown, LogOk, Within;
    hide PendingPlain, MaySend, OwnerOk, PlainWait, Balanced, Named, Sum, Tally;
    var line := Line(b, via, WithId(message, Some(Fresh(s.minted))));
    FreshPending(s);
    SameRights(s.backends, b, via, message, Fresh(s.minted));
    SumPush(s.written, line, ReturnedPair);
    LogGrows(s.written, s.backends, line);
    PendingGrows(RolesOf(s), s.backends, s.pending, Fresh(s.minted), Pending(b, waiting));
    RequestedNames(s, b, via, message, waiting);
    RequestedBalances(s, b, via, message, waiting);
  }

  lemma FreshPending(s: State)
    requires Named(s)
    ensures Fresh(s.minted) !in s.pending && PendingPlain(s.pending)
  {
  }

  lemma SameRights(backends: seq<Backend>, b: nat, via: Via, message: Message, id: Id)
    requires MaySend(backends, Line(b, via, message))
    ensures MaySend(backends, Line(b, via, WithId(message, Some(id))))
  {
  }

  // Steps that change the list of servers.

  /** `after` has the servers of `before`, possibly with other queues, and new ones that are not ready. */
  ghost predicate Extends(before: seq<Backend>, after: seq<Backend>) {
    && |before| <= |after|
    && (forall b :: 0 <= b < |before| ==> after[b] == before[b].(queue := after[b].queue))
    && (forall b :: |before| <= b < |after| ==> !after[b].ready)
  }

  lemma ExtendedRoles(r: Roles, q: Roles, before: seq<Backend>, after: seq<Backend>, pending: map<Id, Pending>,
                      activations: map<nat, seq<Activation>>)
    requires Extends(before, after) && (q == r || (r.opening.None? && q == r.(opening := q.opening)))
    requires ProjectsOk(r, before, pending) && OwnersOk(r, before, pending)
    requires ReadyOk(r, before) && ActivationsOk(r, before, activations)
    ensures ProjectsOk(q, after, pending) && OwnersOk(q, after, pending)
    ensures ReadyOk(q, after) && ActivationsOk(q, after, activations)
  {
    hide InitPending, Initializes;
    forall id | id in pending
      ensures OwnerOk(q, after, pending[id])
    {
      assert OwnerOk(r, before, pending[id]);
    }
    forall b | 0 <= b < |after| && after[b].live && after[b].ready
      ensures Attached(q, after, b)
    {
      assert Attached(r, before, b);
    }
  }

  lemma ExtendedLog(written: seq<Line>, before: seq<Backend>, after: seq<Backend>)
    requires Extends(before, after) && LogOk(written, before)
    ensures LogOk(written, after)
  {
    hide Greeted, RunsThread;
    forall i | 0 <= i < |written|
      ensures LineOk(written, i, after)
    {
      assert LineOk(written, i, before);
    }
  }

  lemma ExtendedOwners(replies: map<Id, Asked>, dropped: multiset<(nat, Id)>, before: seq<Backend>,
                       after: seq<Backend>)
    requires Extends(before, after) && OwnersKnown(replies, dropped, before)
    ensures OwnersKnown(replies, dropped, after)
  {
  }

  lemma WithinMore(table: map<string, nat>, few: nat, many: nat)
    requires Within(table, few) && few <= many
    ensures Within(table, many)
  {
  }

  /** Replacing the servers by ones that extend them. */
  lemma ExtendedKeeps(s: State, t: State)
    requires Core(s) && Extends(s.backends, t.backends)
    requires t == s.(backends := t.backends, opening := t.opening, hand := t.hand)
    requires t.opening == s.opening || s.opening.None?
    requires Balanced(t) && BackendsPlain(t.backends) && StateOk(RolesOf(t), t.backends)
    ensures Core(t)
  {
    hide HeldIn, StateOk, ProjectsOk, OwnersOk, ReadyOk, ActivationsOk, QuestionsOk, OwnersKnown, LogOk, Within;
    hide QueuedOk, BackendsPlain, PendingPlain, ActivationsPlain, BatchesPlain, AnswersOwn, MintedBefore, Extends;
    hide Balanced;
    ExtendedRoles(RolesOf(s), RolesOf(t), s.backends, t.backends, s.pending, s.activations);
    ExtendedLog(s.written, s.backends, t.backends);
    ExtendedOwners(s.replies, s.dropped, s.backends, t.backends);
    assert |s.backends| <= |t.backends| by { Longer(s.backends, t.backends); }
    WithinMore(s.threads, |s.backends|, |t.backends|);
    WithinMore(s.activeTurns, |s.backends|, |t.backends|);
  }

  lemma Longer(before: seq<Backend>, after: seq<Backend>)
    requires Extends(before, after)
    ensures |before| <= |after|
  {
  }

  /** A message waits in the queue of a server. */
  function QueuedAt(s: State, b: nat, m: Message): State
    requires b < |s.backends|
  {
    s.(backends := s.backends[b := s.backends[b].(queue := s.backends[b].queue + [m])], hand := s.hand - IdOf(m))
  }

  lemma QueuedKeeps(s: State, b: nat, m: Message)
    requires Core(s) && b < |s.backends| && PlainCall(m) && IdOf(m) <= s.hand
    requires RunsThread(m) ==> !Current(RolesOf(s), b)
    ensures Core(QueuedAt(s, b, m))
  {
    hide HeldIn, ProjectsOk, OwnersOk, ReadyOk, ActivationsOk, QuestionsOk, OwnersKnown, LogOk, Within, Sum, Tally;
    hide QueuedOk, PendingPlain, ActivationsPlain, BatchesPlain, AnswersOwn, MintedBefore, Balanced, RunsThread;
    var t := QueuedAt(s, b, m);
    HeldServerQueue(s, b, m);
    assert Held(t) == Held(s.(backends := t.backends));
    Placed(s, t, IdOf(m));
    ExtendedKeeps(s, t);
  }

  /** A server that was just started. */
  function Spawned(s: State, workspace: Option<string>): State {
    s.(backends := s.backends + [Backend(true, false, [], workspace)], opening := Some(|s.backends|))
  }

  lemma SpawnedKeeps(s: State, workspace: Option<string>)
    requires Core(s) && s.opening.None?
    ensures Core(Spawned(s, workspace))
  {
    hide HeldIn, ProjectsOk, OwnersOk, ReadyOk, ActivationsOk, QuestionsOk, OwnersKnown, LogOk, Within, Sum, Tally;
    hide QueuedOk, PendingPlain, ActivationsPlain, BatchesPlain, AnswersOwn, MintedBefore, Balanced, RunsThread;
    var t := Spawned(s, workspace);
    HeldSpawned(s, Backend(true, false, [], workspace));
    assert Held(t) == Held(s.(backends := t.backends));
    Placed(s, t, multiset{});
    ExtendedKeeps(s, t);
  }

  /** The started server becomes the shared state server. */
  function AsCommon(s: State, b: nat): State {
    s.(common := Some(b), opening := None)
  }

  lemma AsCommonKeeps(s: State, b: nat)
    requires Core(s) && s.opening == Some(b) && 0 < b < |s.backends| && s.backends[b] == Backend(true, false, [], None)
    requires s.common.Some? ==> !s.backends[s.common.value].live
    ensures Core(AsCommon(s, b))
  {
    hide HeldIn, QuestionsOk, OwnersKnown, LogOk, Within, InitPending, Initializes;
    hide QueuedOk, BackendsPlain, PendingPlain, ActivationsPlain, BatchesPlain, AnswersOwn, MintedBefore;
    var r, q := RolesOf(s), RolesOf(AsCommon(s, b));
    forall id | id in s.pending
      ensures OwnerOk(q, s.backends, s.pending[id])
    {
      assert OwnerOk(r, s.backends, s.pending[id]);
    }
  }

  /** The started server becomes the one of its project. */
  function AsProject(s: State, root: string, b: nat): State {
    s.(projects := s.projects[root := b], opening := None)
  }

  lemma OneMoreProject(r: Roles, root: string, b: nat, backends: seq<Backend>, pending: map<Id, Pending>,
                       activations: map<nat, seq<Activation>>)
    requires r.opening == Some(b) && root !in r.projects
    requires b < |backends| && backends[b] == Backend(true, false, [], Some(root)) && InitPending(pending, b)
    requires ProjectsOk(r, backends, pending) && OwnersOk(r, backends, pending)
    requires ReadyOk(r, backends) && ActivationsOk(r, backends, activations)
    ensures var q := r.(projects := r.projects[root := b], opening := None);
            && ProjectsOk(q, backends, pending) && OwnersOk(q, backends, pending)
            && ReadyOk(q, backends) && ActivationsOk(q, backends, activations)
  {
    hide Initializes, InitPending;
    var q := r.(projects := r.projects[root := b], opening := None);
    forall id | id in pending
      ensures OwnerOk(q, backends, pending[id])
    {
      assert OwnerOk(r, backends, pending[id]);
    }
    forall i | 0 <= i < |backends| && backends[i].live && backends[i].ready
      ensures Attached(q, backends, i)
    {
      assert Attached(r, backends, i);
    }
  }

  lemma AsProjectKeeps(s: State, root: string, b: nat)
    requires Core(s) && s.opening == Some(b) && root !in s.projects
    requires b < |s.backends| && s.backends[b] == Backend(true, false, [], Some(root))
    requires InitPending(s.pending, b)
    ensures Core(AsProject(s, root, b))
  {
    hide HeldIn, QuestionsOk, OwnersKnown, LogOk, Within, ProjectsOk, OwnersOk, ReadyOk, ActivationsOk, InitPending;
    hide QueuedOk, BackendsPlain, PendingPlain, ActivationsPlain, BatchesPlain, AnswersOwn, MintedBefore;
    OneMoreProject(RolesOf(s), root, b, s.backends, s.pending, s.activations);
  }

  /** A server whose handshake could not even be sent is left to itself. */
  function Abandoned(s: State): State {
    s.(opening := None)
  }

  lemma AbandonedKeeps(s: State, t: State)
    requires Core(s) && s.opening.None?
    requires t.opening == Some(|s.backends|) && t.pending == s.pending && t.projects == s.projects
    requires Core(t)
    ensures Core(Abandoned(t))
  {
    hide HeldIn, QuestionsOk, OwnersKnown, LogOk, Within, InitPending, Initializes, StateOk, ReadyOk, ActivationsOk;
    hide QueuedOk, BackendsPlain, PendingPlain, ActivationsPlain, BatchesPlain, AnswersOwn, MintedBefore;
    var r, q := RolesOf(t), RolesOf(Abandoned(t));
    forall id | id in t.pending
      ensures OwnerOk(q, t.backends, t.pending[id])
    {
      assert OwnerOk(r, t.backends, t.pending[id]) && OwnerOk(RolesOf(s), s.backends, s.pending[id]);
    }
    assert StateOk(q, t.backends) && ReadyOk(q, t.backends) && ActivationsOk(q, t.backends, t.activations) by {
      SameButOpening(r, q, t.backends, t.activations);
    }
  }

  lemma SameButOpening(r: Roles, q: Roles, backends: seq<Backend>, activations: map<nat, seq<Activation>>)
    requires q == r.(opening := q.opening)
    ensures StateOk(r, backends) ==> StateOk(q, backends)
    ensures ReadyOk(r, backends) ==> ReadyOk(q, backends)
    ensures ActivationsOk(r, backends, activations) ==> ActivationsOk(q, backends, activations)
  {
  }

  /** A request of the client before it may be served. */
  function Parked(s: State, m: Message): State {
    s.(clientQueue := s.clientQueue + [m], hand := s.hand - IdOf(m))
  }

  lemma ParkedKeeps(s: State, m: Message)
    requires Core(s) && s.initialize.Some? && PlainCall(m) && FromClient(m) && IdOf(m) <= s.hand
    ensures Core(Parked(s, m))
  {
    hide HeldIn, StateOk, ProjectsOk, OwnersOk, ReadyOk, ActivationsOk, QuestionsOk, OwnersKnown, LogOk, Within;
    hide BackendsPlain, PendingPlain, ActivationsPlain, BatchesPlain, AnswersOwn, MintedBefore, Balanced;
    HeldClientQueue(s, m);
    assert Held(Parked(s, m)) == Held(s.(clientQueue := s.clientQueue + [m]));
    Placed(s, Parked(s, m), IdOf(m));
  }

  /** A thread waits for the handshake of its project server. */
  function Waits(s: State, b: nat, a: Activation): State {
    s.(activations := s.activations[b := (if b in s.activations then s.activations[b] else []) + [a]],
       hand := s.hand - IdOf(a.original))
  }

  lemma WaitsKeeps(s: State, b: nat, a: Activation)
    requires Core(s) && IsProject(RolesOf(s), s.backends, b) && !s.backends[b].ready
    requires PlainActivation(a) && IdOf(a.original) <= s.hand
    ensures Core(Waits(s, b, a))
  {
    hide HeldIn, StateOk, ProjectsOk, OwnersOk, ReadyOk, QuestionsOk, OwnersKnown, LogOk, Within, IsProject;
    hide QueuedOk, BackendsPlain, PendingPlain, BatchesPlain, AnswersOwn, MintedBefore, Balanced, PlainActivation;
    HeldActivation(s, b, a);
    assert Held(Waits(s, b, a)) == Held(s.(activations := Waits(s, b, a).activations));
    Placed(s, Waits(s, b, a), IdOf(a.original));
  }

  // Settling what waits for a server.

  /** A reply arrived: the entry is taken out, and a handshake is being settled if it was one. */
  function Settled(s: State, id: Id): State
    requires id in s.pending
  {
    s.(pending := s.pending - {id}, hand := s.hand + PendingId(s.pending[id]),
       opening := if s.pending[id].waiting.ForInitialize? then Some(s.pending[id].owner) else s.opening)
  }

  lemma OneLess(r: Roles, q: Roles, backends: seq<Backend>, pending: map<Id, Pending>, id: Id)
    requires id in pending && r.opening.None?
    requires q == r.(opening := if pending[id].waiting.ForInitialize? then Some(pending[id].owner) else None)
    requires ProjectsOk(r, backends, pending) && OwnersOk(r, backends, pending)
    ensures ProjectsOk(q, backends, pending - {id}) && OwnersOk(q, backends, pending - {id})
  {
    hide Initializes;
    forall b: nat | InitPending(pending, b) && q.opening != Some(b)
      ensures InitPending(pending - {id}, b)
    {
      var k :| k in pending && pending[k] == Pending(b, ForInitialize);
      assert k in pending - {id} && (pending - {id})[k] == Pending(b, ForInitialize);
    }
    forall k | k in pending - {id}
      ensures OwnerOk(q, backends, (pending - {id})[k])
    {
      assert OwnerOk(r, backends, pending[k]);
    }
  }

  lemma SettledKeeps(s: State, id: Id)
    requires Core(s) && s.opening.None? && id in s.pending
    ensures Core(Settled(s, id))
    ensures OwnerOk(RolesOf(s), s.backends, s.pending[id]) && PlainWait(s.pending[id].waiting) && s.initialize.Some?
  {
    hide HeldIn, StateOk, ProjectsOk, ReadyOk, ActivationsOk, QuestionsOk, OwnersKnown, LogOk, Within, PlainWait;
    hide QueuedOk, BackendsPlain, ActivationsPlain, BatchesPlain, AnswersOwn, Balanced, OwnerOk;
    var t := Settled(s, id);
    HeldSettled(s, id);
    assert Held(t) == Held(s.(pending := t.pending));
    Taken(s, t, PendingId(s.pending[id]));
    assert t.pending.Keys <= s.pending.Keys;
    OneLess(RolesOf(s), RolesOf(t), s.backends, s.pending, id);
    SameButOpening(RolesOf(s), RolesOf(t), s.backends, s.activations);
  }

  function Waiters(s: State, b: nat): seq<Activation> {
    if b in s.activations then s.activations[b] else []
  }

  /** The handshake of a server is done; the threads waiting for it are in hand. */
  function Opened(s: State, b: nat, line: Line): State
    requires b < |s.backends|
  {
    s.(backends := s.backends[b := s.backends[b].(ready := true)], written := s.written + [line],
       activations := s.activations - {b}, opening := None)
  }

  lemma OpenedRoles(r: Roles, backends: seq<Backend>, pending: map<Id, Pending>,
                    activations: map<nat, seq<Activation>>, b: nat)
    requires b < |backends| && Attached(r, backends, b) && (r.opening.None? || r.opening == Some(b))
    requires ProjectsOk(r, backends, pending) && OwnersOk(r, backends, pending)
    requires ReadyOk(r, backends) && ActivationsOk(r, backends, activations)
    ensures var q, after := r.(opening := None), backends[b := backends[b].(ready := true)];
            && ProjectsOk(q, after, pending) && OwnersOk(q, after, pending)
            && ReadyOk(q, after) && ActivationsOk(q, after, activations - {b})
  {
    var q, after := r.(opening := None), backends[b := backends[b].(ready := true)];
    assert forall i: nat :: IsProject(q, after, i) == IsProject(r, backends, i);
    hide InitPending, Initializes, IsProject;
    forall id | id in pending
      ensures OwnerOk(q, after, pending[id])
    {
      assert OwnerOk(r, backends, pending[id]);
    }
    forall i | 0 <= i < |after| && after[i].live && after[i].ready
      ensures Attached(q, after, i)
    {
      assert i != b ==> Attached(r, backends, i);
    }
  }

  lemma OpenedState(r: Roles, backends: seq<Backend>, b: nat)
    requires b < |backends| && StateOk(r, backends)
    ensures StateOk(r.(opening := None), backends[b := backends[b].(ready := true)])
  {
    hide RunsThread;
  }

  lemma OpenedLog(written: seq<Line>, backends: seq<Backend>, b: nat, line: Line)
    requires LogOk(written, backends) && MaySend(backends, line) && line.to == b && line.via.Greeting?
    ensures LogOk(written + [line], backends[b := backends[b].(ready := true)])
  {
    hide RunsThread;
    LogGrows(written, backends, line);
    var longer, after := written + [line], backends[b := backends[b].(ready := true)];
    assert longer[|written|] == line;
    forall i | 0 <= i < |longer|
      ensures LineOk(longer, i, after)
    {
      assert LineOk(longer, i, backends);
    }
  }

  lemma OpenedNames(s: State, b: nat, line: Line)
    requires Named(s) && b < |s.backends|
    ensures Named(Opened(s, b, line)) && AllPlain(Waiters(s, b))
  {
    hide QueuedOk, PendingPlain, BatchesPlain, AnswersOwn, MintedBefore, AllPlain;
    if b !in s.activations {
      NoneWaiting();
    }
  }

  lemma OpenedKeeps(s: State, b: nat, line: Line)
    requires Core(s) && b < |s.backends| && s.backends[b].live && Attached(RolesOf(s), s.backends, b)
    requires s.opening.None? || s.opening == Some(b)
    requires line.to == b && line.via.Greeting? && !RunsThread(line.message)
    ensures Core(Opened(s, b, line).(hand := s.hand + ActivationIds(Waiters(s, b))))
    ensures AllPlain(Waiters(s, b))
  {
    hide HeldIn, StateOk, ProjectsOk, OwnersOk, ReadyOk, ActivationsOk, LogOk, Within, Sum, Tally;
    hide Balanced, Attached, AllPlain, Named;
    var t := Opened(s, b, line).(hand := s.hand + ActivationIds(Waiters(s, b)));
    OpenedBalances(s, b, line);
    OpenedNames(s, b, line);
    SameNames(Opened(s, b, line), t);
    OpenedState(RolesOf(s), s.backends, b);
    OpenedRoles(RolesOf(s), s.backends, s.pending, s.activations, b);
    OpenedLog(s.written, s.backends, b, line);
    SumPush(s.written, line, ReturnedPair);
  }

  lemma NoneWaiting()
    ensures AllPlain([])
  {
  }

  lemma OpenedBalances(s: State, b: nat, line: Line)
    requires Balanced(s) && b < |s.backends|
    ensures Balanced(Opened(s, b, line).(hand := s.hand + ActivationIds(Waiters(s, b))))
  {
    hide HeldIn, Balanced, Sum;
    var t := Opened(s, b, line).(hand := s.hand + ActivationIds(Waiters(s, b)));
    var u := s.(activations := t.activations);
    if b in s.activations {
      HeldStarted(s, b);
    } else {
      assert u.activations == s.activations;
      PushedActivation([], Activation(GREETING, GREETING));
    }
    HeldSameQueue(u, b, s.backends[b].(ready := true));
    assert Held(t) == Held(u.(backends := t.backends));
    Taken(s, t, ActivationIds(Waiters(s, b)));
  }

  lemma HeldSameQueue(s: State, b: nat, backend: Backend)
    requires b < |s.backends| && backend.queue == s.backends[b].queue
    ensures Held(s.(backends := s.backends[b := backend])) == Held(s)
  {
    hide Sum, HeldIn;
    HeldBackend(s, b, backend);
    var t := s.(backends := s.backends[b := backend]);
    forall x: Id
      ensures Held(t)[x] == Held(s)[x]
    {
      assert (Held(t) + QueueIds(s.backends[b]))[x] == (Held(s) + QueueIds(backend))[x];
    }
  }

  /** The queue of a server is taken into hand. */
  function Drained(s: State, b: nat): State
    requires b < |s.backends|
  {
    s.(backends := s.backends[b := s.backends[b].(queue := [])])
  }

  lemma DrainedBalances(s: State, b: nat)
    requires Balanced(s) && b < |s.backends|
    ensures Balanced(Drained(s, b).(hand := s.hand + QueueIds(s.backends[b])))
  {
    hide HeldIn, Balanced;
    var t := Drained(s, b).(hand := s.hand + QueueIds(s.backends[b]));
    HeldBackend(s, b, s.backends[b].(queue := []));
    assert Held(t) == Held(s.(backends := t.backends));
    Taken(s, t, QueueIds(s.backends[b]));
  }

  lemma DrainedKeeps(s: State, b: nat)
    requires Core(s) && b < |s.backends|
    ensures Core(Drained(s, b).(hand := s.hand + QueueIds(s.backends[b])))
    ensures QueuePlain(s.backends[b].queue)
    ensures Current(RolesOf(s), b) ==> forall m :: m in s.backends[b].queue ==> !RunsThread(m)
  {
    hide HeldIn, ProjectsOk, OwnersOk, ReadyOk, ActivationsOk, QuestionsOk, OwnersKnown, LogOk, Within, Sum, Tally;
    hide QueuedOk, PendingPlain, ActivationsPlain, BatchesPlain, AnswersOwn, MintedBefore, Balanced, RunsThread;
    DrainedBalances(s, b);
    ExtendedKeeps(s, Drained(s, b).(hand := s.hand + QueueIds(s.backends[b])));
  }
}
