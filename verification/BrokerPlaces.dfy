/** What the invariants say about a single request, in any state a run can reach. */
module BrokerPlaces {
  import opened Ledger
  import opened Messages
  import opened Options
  import opened BrokerState

  /** Where a request can be. */
  datatype Place =
    | InClientQueue(i: nat)
    | InServerQueue(b: nat, i: nat)
    | UnderWay(key: Id)
    | AwaitsHandshake(b: nat, i: nat)
    | IsSplit(group: Id)
    | IsAnswered(i: nat)

  predicate At(s: State, place: Place, id: Id) {
    match place
    case InClientQueue(i) => i < |s.clientQueue| && s.clientQueue[i].id == Some(id)
    case InServerQueue(b, i) => b < |s.backends| && i < |s.backends[b].queue| && s.backends[b].queue[i].id == Some(id)
    case UnderWay(key) => key in s.pending && id in OriginalOf(s.pending[key].waiting)
    case AwaitsHandshake(b, i) =>
      b in s.activations && i < |s.activations[b]| && s.activations[b][i].original.id == Some(id)
    case IsSplit(group) => group in s.batches && s.batches[group].original.id == Some(id)
    case IsAnswered(i) => i < |s.stdout| && s.stdout[i].Reply? && s.stdout[i].id == Some(id)
  }

  ghost predicate OnlyAt(s: State, place: Place, id: Id) {
    At(s, place, id) && forall other :: At(s, other, id) ==> other == place
  }

  /** How often the request is counted in each kind of place. */
  ghost function Count(s: State, kind: nat, id: Id): nat {
    match kind
    case 0 => Sum(s.clientQueue, IdOf)[id]
    case 1 => Sum(s.backends, QueueIds)[id]
    case 2 => Tally(s.pending, PendingId)[id]
    case 3 => Tally(s.activations, ActivationIds)[id]
    case 4 => Tally(s.batches, BatchId)[id]
    case _ => Sum(s.stdout, AnswerOf)[id]
  }

  function Kind(place: Place): nat {
    match place
    case InClientQueue(_) => 0
    case InServerQueue(_, _) => 1
    case UnderWay(_) => 2
    case AwaitsHandshake(_, _) => 3
    case IsSplit(_) => 4
    case IsAnswered(_) => 5
  }

  lemma CountedOnce(s: State, id: Id)
    requires Valid(s) && s.hand == multiset{} && id.Given? && s.received[id] == 1
    ensures Count(s, 0, id) + Count(s, 1, id) + Count(s, 2, id)
          + Count(s, 3, id) + Count(s, 4, id) + Count(s, 5, id) == 1
  {
    hide Sum, Tally, Routed, Known, Asking, Logged, Batching;
    assert (Held(s) + s.hand)[id] == (s.received + multiset(s.batchRequests.Keys))[id];
    assert id !in s.batchRequests.Keys;
  }

  lemma SumHas<V, T>(items: seq<V>, i: nat, carried: V -> multiset<T>, x: T)
    requires i < |items| && x in carried(items[i])
    ensures Sum(items, carried)[x] >= 1
  {
    SumPrefix(items, i, carried);
    assert x in Sum(items[..i], carried) + carried(items[i]);
  }

  lemma TallyHas<K, V, T>(m: map<K, V>, k: K, carried: V -> multiset<T>, x: T)
    requires k in m && x in carried(m[k])
    ensures Tally(m, carried)[x] >= 1
  {
    TallyWithout(m, k, carried);
  }

  /** Being at a place is being counted for its kind. */
  lemma AtIsCounted(s: State, place: Place, id: Id)
    requires At(s, place, id)
    ensures Count(s, Kind(place), id) >= 1
  {
    hide Sum, Tally;
    match place {
      case InClientQueue(i) => SumHas(s.clientQueue, i, IdOf, id);
      case InServerQueue(b, i) =>
        SumHas(s.backends[b].queue, i, IdOf, id);
        SumHas(s.backends, b, QueueIds, id);
      case UnderWay(key) => TallyHas(s.pending, key, PendingId, id);
      case AwaitsHandshake(b, i) =>
        SumHas(s.activations[b], i, ActivationId, id);
        TallyHas(s.activations, b, ActivationIds, id);
      case IsSplit(group) => TallyHas(s.batches, group, BatchId, id);
      case IsAnswered(i) => SumHas(s.stdout, i, AnswerOf, id);
    }
  }

  ghost predicate OnlyOfKind(s: State, kind: nat, place: Place, id: Id) {
    && At(s, place, id) && Kind(place) == kind
    && forall other :: At(s, other, id) && Kind(other) == kind ==> other == place
  }

  /** What is counted once for a kind is at exactly one place of that kind. */
  lemma PlaceOfKind(s: State, kind: nat, id: Id) returns (place: Place)
    requires kind <= 5 && Count(s, kind, id) == 1
    ensures OnlyOfKind(s, kind, place, id)
  {
    hide OnlyOfKind, Count;
    if kind == 0 {
      place := ClientPlace(s, id);
    } else if kind == 1 {
      place := ServerPlace(s, id);
    } else if kind == 2 {
      place := PendingPlace(s, id);
    } else if kind == 3 {
      place := HandshakePlace(s, id);
    } else if kind == 4 {
      place := SplitPlace(s, id);
    } else {
      place := AnswerPlace(s, id);
    }
  }

  lemma ClientPlace(s: State, id: Id) returns (place: Place)
    requires Count(s, 0, id) == 1
    ensures OnlyOfKind(s, 0, place, id)
  {
    hide Sum, Tally;
    var i := SumOnce(s.clientQueue, IdOf, id);
    place := InClientQueue(i);
  }

  lemma PendingPlace(s: State, id: Id) returns (place: Place)
    requires Count(s, 2, id) == 1
    ensures OnlyOfKind(s, 2, place, id)
  {
    hide Sum, Tally;
    var key := TallyOnce(s.pending, PendingId, id);
    place := UnderWay(key);
  }

  lemma OneGroup(batches: map<Id, Batch>, id: Id) returns (group: Id)
    requires Tally(batches, BatchId)[id] == 1
    ensures group in batches && batches[group].original.id == Some(id)
    ensures forall other :: other in batches && batches[other].original.id == Some(id) ==> other == group
  {
    hide Tally;
    group := TallyOnce(batches, BatchId, id);
    forall other | other in batches && batches[other].original.id == Some(id)
      ensures other == group
    {
      assert BatchId(batches[other])[id] == 1;
    }
  }

  lemma SplitPlace(s: State, id: Id) returns (place: Place)
    requires Count(s, 4, id) == 1
    ensures OnlyOfKind(s, 4, place, id)
  {
    hide Sum, Tally, BatchId;
    var group := OneGroup(s.batches, id);
    place := IsSplit(group);
  }

  lemma AnswerPlace(s: State, id: Id) returns (place: Place)
    requires Count(s, 5, id) == 1
    ensures OnlyOfKind(s, 5, place, id)
  {
    hide Sum, Tally;
    var i := SumOnce(s.stdout, AnswerOf, id);
    place := IsAnswered(i);
  }

  lemma ServerPlace(s: State, id: Id) returns (place: Place)
    requires Count(s, 1, id) == 1
    ensures OnlyOfKind(s, 1, place, id)
  {
    hide Sum, Tally;
    var b := SumOnce(s.backends, QueueIds, id);
    var i := SumOnce(s.backends[b].queue, IdOf, id);
    place := InServerQueue(b, i);
    forall other: Place | other.InServerQueue? && At(s, other, id)
      ensures other == place
    {
      SumHas(s.backends[other.b].queue, other.i, IdOf, id);
    }
  }

  lemma HandshakePlace(s: State, id: Id) returns (place: Place)
    requires Count(s, 3, id) == 1
    ensures OnlyOfKind(s, 3, place, id)
  {
    hide Sum, Tally;
    var b := TallyOnce(s.activations, ActivationIds, id);
    var i := SumOnce(s.activations[b], ActivationId, id);
    place := AwaitsHandshake(b, i);
    forall other: Place | other.AwaitsHandshake? && At(s, other, id)
      ensures other == place
    {
      SumHas(s.activations[other.b], other.i, ActivationId, id);
    }
  }

  /** A request received once is in exactly one place: it waits, is under way or split, or was answered once. */
  lemma OncePerRequest(s: State, id: Id) returns (place: Place)
    requires Valid(s) && s.hand == multiset{} && id.Given? && s.received[id] == 1
    ensures OnlyAt(s, place, id)
  {
    hide Count, Valid, At;
    CountedOnce(s, id);
    var kind: nat :| kind <= 5 && Count(s, kind, id) == 1;
    place := PlaceOfKind(s, kind, id);
    forall other | At(s, other, id)
      ensures other == place
    {
      AtIsCounted(s, other, id);
    }
  }

  /** Nothing is answered that was not asked, and nothing more often than it was asked. */
  lemma AnswersAreOwed(s: State, id: Id)
    requires Valid(s)
    ensures Sum(s.stdout, AnswerOf)[id] <= s.received[id]
  {
    hide Sum, Tally, Routed, Known, Asking, Logged, Batching, QueuedOk, BackendsPlain, PendingPlain, ActivationsPlain;
    if id.Given? {
      assert (Held(s) + s.hand)[id] == (s.received + multiset(s.batchRequests.Keys))[id];
      assert id !in s.batchRequests.Keys;
    } else {
      NoMintedAnswers(s.stdout, id);
    }
  }

  lemma {:induction false} NoMintedAnswers(stdout: seq<Message>, id: Id)
    requires AnswersOwn(stdout) && id.Fresh?
    ensures Sum(stdout, AnswerOf)[id] == 0
  {
    if stdout != [] {
      NoMintedAnswers(stdout[..|stdout| - 1], id);
      assert stdout[|stdout| - 1] in stdout;
    }
  }

  /** No server is left, and nothing is queued at one. */
  ghost predicate Deserted(s: State) {
    forall b :: 0 <= b < |s.backends| ==> !s.backends[b].live && s.backends[b].queue == []
  }

  lemma {:induction false} NothingQueued(backends: seq<Backend>)
    requires forall b :: 0 <= b < |backends| ==> backends[b].queue == []
    ensures Sum(backends, QueueIds) == multiset{}
  {
    if backends != [] {
      NothingQueued(backends[..|backends| - 1]);
      SumNone<Message, Id>(backends[|backends| - 1].queue, IdOf);
    }
  }

  /** A live server owns what is under way. */
  lemma OwnerLives(s: State, id: Id)
    requires Valid(s) && id in s.pending
    ensures exists b :: 0 <= b < |s.backends| && s.backends[b].live
  {
    hide Balanced, Named, Known, Asking, Logged, Batching, StateOk, ProjectsOk, ReadyOk, ActivationsOk, Attached;
    assert OwnerOk(RolesOf(s), s.backends, s.pending[id]);
  }

  lemma WaitedForLives(s: State, b: nat)
    requires Valid(s) && b in s.activations
    ensures exists c :: 0 <= c < |s.backends| && s.backends[c].live
  {
    hide Balanced, Named, Known, Asking, Logged, Batching, StateOk, OwnersOk, ReadyOk, InitPending;
    assert IsProject(RolesOf(s), s.backends, b);
  }

  lemma NothingWaits(s: State)
    requires Valid(s) && Deserted(s)
    ensures s.pending == map[] && s.activations == map[]
  {
    hide Valid;
    if s.pending != map[] {
      var id :| id in s.pending;
      OwnerLives(s, id);
    }
    if s.activations != map[] {
      var b :| b in s.activations;
      WaitedForLives(s, b);
    }
  }

  lemma GroupHasPart(s: State, group: Id)
    requires Valid(s) && group in s.batches
    ensures s.batchRequests != map[]
  {
    hide Core;
    assert BatchOk(s.batches[group], Open(s.batchRequests, group), 0, s.parts[group]);
    assert |Open(s.batchRequests, group)| > 0;
    var part :| part in Open(s.batchRequests, group);
    assert part in s.batchRequests;
  }

  /** A part of a split request is nowhere but at a server. */
  lemma NoParts(s: State, id: Id)
    requires Valid(s) && s.hand == multiset{} && Deserted(s)
    ensures id !in s.batchRequests
  {
    hide Sum, Tally, Routed, Known, Asking, Logged, Batching, PendingPlain, ActivationsPlain, BackendsPlain;
    NothingWaits(s);
    NothingQueued(s.backends);
    if id in s.batchRequests {
      assert id.Fresh?;
      assert (Held(s) + s.hand)[id] == (s.received + multiset(s.batchRequests.Keys))[id];
      NoMintedAnswers(s.stdout, id);
      NoMintedParked(s.clientQueue, id);
      NoMintedGroups(s.batches, id);
      assert Tally(s.pending, PendingId) == multiset{} && Tally(s.activations, ActivationIds) == multiset{} by {
        EmptyTallies(s);
      }
    }
  }

  lemma EmptyTallies(s: State)
    requires s.pending == map[] && s.activations == map[]
    ensures Tally(s.pending, PendingId) == multiset{} && Tally(s.activations, ActivationIds) == multiset{}
  {
  }

  lemma {:induction false} NoMintedParked(queue: seq<Message>, id: Id)
    requires QueuedOk(queue) && id.Fresh?
    ensures Sum(queue, IdOf)[id] == 0
  {
    if queue != [] {
      NoMintedParked(queue[..|queue| - 1], id);
      assert queue[|queue| - 1] in queue;
    }
  }

  lemma NoMintedGroups(batches: map<Id, Batch>, id: Id)
    requires BatchesPlain(batches) && id.Fresh?
    ensures Tally(batches, BatchId)[id] == 0
  {
    if id in Tally(batches, BatchId) {
      var g := TallyMember(batches, BatchId, id);
    }
  }

  /** With every server closed and its queue empty no split request is open, and each request was answered or
      waits at the client. */
  lemma NothingIsLeft(s: State, id: Id)
    requires Valid(s) && s.hand == multiset{} && Deserted(s)
    ensures s.pending == map[] && s.activations == map[] && s.batches == map[] && s.batchRequests == map[]
    ensures id.Given? ==> s.received[id] == Sum(s.clientQueue, IdOf)[id] + Sum(s.stdout, AnswerOf)[id]
  {
    hide Sum, Tally, Routed, Known, Asking, Logged, Named, Batching;
    NothingWaits(s);
    forall part: Id
      ensures part !in s.batchRequests
    {
      NoParts(s, part);
    }
    assert s.batchRequests == map[];
    if s.batches != map[] {
      var g :| g in s.batches;
      GroupHasPart(s, g);
    }
    EmptyTallies(s);
    assert Tally(s.batches, BatchId) == multiset{} by {
      EmptyGroups(s.batches);
    }
    NothingQueued(s.backends);
    assert (Held(s) + s.hand)[id] == (s.received + multiset(s.batchRequests.Keys))[id];
  }

  lemma EmptyGroups(batches: map<Id, Batch>)
    requires batches == map[]
    ensures Tally(batches, BatchId) == multiset{}
  {
  }

  /** Where a request of a server can be. */
  datatype Question =
    | IsOpen(key: Id)
    | IsReturned(i: nat)
    | IsDropped

  ghost predicate AskedAt(s: State, place: Question, b: nat, id: Id) {
    match place
    case IsOpen(key) => key in s.replies && s.replies[key] == Asked(b, id)
    case IsReturned(i) => i < |s.written| && (b, id) in ReturnedPair(s.written[i])
    case IsDropped => (b, id) in s.dropped && b < |s.backends| && !s.backends[b].live
  }

  lemma AskedIsCounted(s: State, place: Question, b: nat, id: Id)
    requires AskedAt(s, place, b, id)
    ensures place.IsOpen? ==> Tally(s.replies, AskedPair)[(b, id)] >= 1
    ensures place.IsReturned? ==> Sum(s.written, ReturnedPair)[(b, id)] >= 1
    ensures place.IsDropped? ==> s.dropped[(b, id)] >= 1
  {
    hide Sum, Tally;
    match place {
      case IsOpen(key) => TallyHas(s.replies, key, AskedPair, (b, id));
      case IsReturned(i) => SumHas(s.written, i, ReturnedPair, (b, id));
      case IsDropped =>
    }
  }

  lemma OpenQuestion(s: State, b: nat, id: Id) returns (key: Id)
    requires Tally(s.replies, AskedPair)[(b, id)] == 1
    ensures AskedAt(s, IsOpen(key), b, id)
    ensures forall other :: AskedAt(s, other, b, id) && other.IsOpen? ==> other == IsOpen(key)
  {
    hide Tally;
    key := TallyOnce(s.replies, AskedPair, (b, id));
    assert (b, id) in AskedPair(s.replies[key]);
  }

  lemma ReturnedQuestion(s: State, b: nat, id: Id) returns (i: nat)
    requires Sum(s.written, ReturnedPair)[(b, id)] == 1
    ensures AskedAt(s, IsReturned(i), b, id)
    ensures forall other :: AskedAt(s, other, b, id) && other.IsReturned? ==> other == IsReturned(i)
  {
    hide Sum;
    i := SumOnce(s.written, ReturnedPair, (b, id));
  }

  /** A request a server made once is in exactly one place: open, answered to that server once, or gone with it. */
  lemma OncePerQuestion(s: State, b: nat, id: Id) returns (place: Question)
    requires Valid(s) && s.asked[(b, id)] == 1
    ensures AskedAt(s, place, b, id) && forall other :: AskedAt(s, other, b, id) ==> other == place
  {
    hide AskedAt, Valid, Sum, Tally;
    ServersAreAnsweredOnce(s, b, id);
    if Tally(s.replies, AskedPair)[(b, id)] == 1 {
      var key := OpenQuestion(s, b, id);
      place := IsOpen(key);
    } else if Sum(s.written, ReturnedPair)[(b, id)] == 1 {
      var i := ReturnedQuestion(s, b, id);
      place := IsReturned(i);
    } else {
      place := IsDropped;
      DroppedQuestion(s, b, id);
    }
    forall other | AskedAt(s, other, b, id)
      ensures other == place
    {
      AskedIsCounted(s, other, b, id);
    }
  }

  lemma DroppedQuestion(s: State, b: nat, id: Id)
    requires Valid(s) && (b, id) in s.dropped
    ensures AskedAt(s, IsDropped, b, id)
  {
    hide Balanced, Named, Routed, Known, Logged, Batching, QuestionsOk;
  }

  /** A server is answered at most as often as it asked, and each of its requests is open, answered or dropped. */
  lemma ServersAreAnsweredOnce(s: State, b: nat, id: Id)
    requires Valid(s)
    ensures Sum(s.written, ReturnedPair)[(b, id)] + Tally(s.replies, AskedPair)[(b, id)] + s.dropped[(b, id)]
         == s.asked[(b, id)]
    ensures b < |s.backends| && s.backends[b].live ==> s.dropped[(b, id)] == 0
  {
    hide Sum, Tally, Balanced, Named, Routed, Known, Logged, Batching;
    assert (Tally(s.replies, AskedPair) + Sum(s.written, ReturnedPair) + s.dropped)[(b, id)] == s.asked[(b, id)];
  }

  /** No state server was ever sent work of a thread, and nothing was routed to a server before its handshake. */
  lemma EveryLine(s: State, i: nat)
    requires Valid(s) && i < |s.written|
    ensures var line := s.written[i];
      && line.to < |s.backends|
      && (RunsThread(line.message) ==>
            s.backends[line.to].workspace.Some? && !Current(RolesOf(s), line.to))
      && (AfterHandshake(line.via) ==>
            exists j :: 0 <= j < i && s.written[j].to == line.to && s.written[j].via.Greeting?)
  {
    hide Balanced, Named, Known, Asking, Batching, ProjectsOk, OwnersOk, ReadyOk, ActivationsOk, RunsThread;
    assert LineOk(s.written, i, s.backends);
    var line := s.written[i];
    if AfterHandshake(line.via) {
      var j :| 0 <= j < i && s.written[..i][j].to == line.to && s.written[..i][j].via.Greeting?;
      assert s.written[j] == s.written[..i][j];
    }
  }
}
