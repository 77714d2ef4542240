/** What the broker keeps, and the invariants over it, stated on the values of its fields. */
module BrokerState {
  import opened Ledger
  import opened Messages
  import opened Options
  import opened BatchJoin

  datatype Waiting =
    | ForClient(original: Message)
    | ForInitialize
    | ForLocate(original: Message)
    | ForActivate(original: Message)

  datatype Pending = Pending(owner: nat, waiting: Waiting)

  datatype Asked = Asked(owner: nat, id: Id)

  datatype Activation = Activation(original: Message, resume: Message)

  datatype Backend = Backend(live: bool, ready: bool, queue: seq<Message>, workspace: Option<string>)

  datatype Batch = Batch(original: Message, remaining: nat, result: map<string, Field>, error: Option<Json>)

  /** Why a line was written to a server. */
  datatype Via = Handshake | Greeting | Lookup | Resume | Dispatch | Answer

  datatype Line = Line(to: nat, via: Via, message: Message)

  /** The fields of the broker, with the bookkeeping the proofs add to them. */
  datatype State = State(
    backends: seq<Backend>,
    projects: map<string, nat>,
    threads: map<string, nat>,
    threadCwds: map<string, string>,
    threadResumes: map<string, Message>,
    activeTurns: map<string, nat>,
    pending: map<Id, Pending>,
    replies: map<Id, Asked>,
    initialize: Option<Message>,
    clientReady: bool,
    clientQueue: seq<Message>,
    host: Option<nat>,
    common: Option<nat>,
    activations: map<nat, seq<Activation>>,
    batches: map<Id, Batch>,
    batchRequests: map<Id, Id>,
    minted: nat,
    stdout: seq<Message>,
    written: seq<Line>,
    // ids of the requests received, and of those in local variables right now
    ghost received: multiset<Id>,
    ghost hand: multiset<Id>,
    // the replies to the parts of each open split request
    ghost parts: map<Id, seq<Message>>,
    // requests the servers made, and those dropped when their server closed
    ghost asked: multiset<(nat, Id)>,
    ghost dropped: multiset<(nat, Id)>,
    // the server whose registration or handshake is being settled
    ghost opening: Option<nat>)

  // The ledger: where the ids of client requests are.

  function OriginalOf(w: Waiting): multiset<Id> {
    if w.ForInitialize? then multiset{} else IdOf(w.original)
  }

  function PendingId(p: Pending): multiset<Id> { OriginalOf(p.waiting) }

  function ActivationId(a: Activation): multiset<Id> { IdOf(a.original) }

  function BatchId(b: Batch): multiset<Id> { IdOf(b.original) }

  ghost function QueueIds(b: Backend): multiset<Id> { Sum(b.queue, IdOf) }

  ghost function ActivationIds(waiting: seq<Activation>): multiset<Id> { Sum(waiting, ActivationId) }

  /** The ids of all requests the broker keeps or has answered. */
  ghost function Held(s: State): multiset<Id> {
    HeldIn(s.clientQueue, s.backends, s.pending, s.activations, s.batches, s.stdout)
  }

  ghost function HeldIn(clientQueue: seq<Message>, backends: seq<Backend>, pending: map<Id, Pending>,
                        activations: map<nat, seq<Activation>>, batches: map<Id, Batch>, stdout: seq<Message>)
    : multiset<Id>
  {
    Sum(clientQueue, IdOf) + Sum(backends, QueueIds) + Tally(pending, PendingId)
    + Tally(activations, ActivationIds) + Tally(batches, BatchId) + Sum(stdout, AnswerOf)
  }

  /** Every request received, and every part of a split one, is held exactly as often as it is owed. */
  ghost predicate Balanced(s: State) {
    Held(s) + s.hand == s.received + multiset(s.batchRequests.Keys)
  }

  predicate FromClient(m: Message) {
    m.id.Some? ==> m.id.value.Given?
  }

  predicate MintedBefore(ids: set<Id>, minted: nat) {
    forall id :: id in ids ==> id.Fresh? && id.serial < minted
  }

  predicate PlainCall(m: Message) {
    m.Call? && !m.verb.Initialize? && !m.verb.Initialized?
  }

  predicate PlainWait(w: Waiting) {
    match w
    case ForInitialize => true
    case ForClient(original) => original.Call?
    case ForLocate(original) => PlainCall(original) && FromClient(original)
    case ForActivate(original) => PlainCall(original) && FromClient(original)
  }

  predicate PlainActivation(a: Activation) {
    PlainCall(a.original) && FromClient(a.original) && a.resume.Call? && a.resume.verb.ThreadResume?
  }

  /** Ids in use are minted ones for the broker's own entries and client ids elsewhere. */
  ghost predicate Named(s: State) {
    && MintedBefore(s.pending.Keys, s.minted) && MintedBefore(s.batches.Keys, s.minted)
    && MintedBefore(s.batchRequests.Keys, s.minted) && MintedBefore(s.replies.Keys, s.minted)
    && QueuedOk(s.clientQueue) && BackendsPlain(s.backends) && PendingPlain(s.pending)
    && ActivationsPlain(s.activations) && BatchesPlain(s.batches) && AnswersOwn(s.stdout)
    && (forall id :: id in s.received ==> id.Given?)
  }

  ghost predicate QueuedOk(clientQueue: seq<Message>) {
    forall m :: m in clientQueue ==> PlainCall(m) && FromClient(m)
  }

  ghost predicate BackendsPlain(backends: seq<Backend>) {
    forall b :: 0 <= b < |backends| ==> QueuePlain(backends[b].queue)
  }

  ghost predicate QueuePlain(queue: seq<Message>) {
    forall m :: m in queue ==> PlainCall(m)
  }

  ghost predicate PendingPlain(pending: map<Id, Pending>) {
    forall id :: id in pending ==> PlainWait(pending[id].waiting)
  }

  ghost predicate ActivationsPlain(activations: map<nat, seq<Activation>>) {
    forall b :: b in activations ==> AllPlain(activations[b])
  }

  ghost predicate AllPlain(waiting: seq<Activation>) {
    forall a :: a in waiting ==> PlainActivation(a)
  }

  ghost predicate BatchesPlain(batches: map<Id, Batch>) {
    forall g :: g in batches ==> FromClient(batches[g].original)
  }

  /** The client never sees an id the broker made up. */
  ghost predicate AnswersOwn(stdout: seq<Message>) {
    forall m :: m in stdout && m.Reply? ==> FromClient(m)
  }

  // Split requests.

  function Open(batchRequests: map<Id, Id>, group: Id): set<Id> {
    set id | id in batchRequests && batchRequests[id] == group
  }

  /** `remaining` counts the open parts plus those not issued yet;
      the joined state is that of the replies so far. */
  ghost predicate BatchOk(batch: Batch, open: set<Id>, unissued: nat, replies: seq<Message>) {
    && batch.remaining == |open| + unissued
    && batch.remaining > 0
    && batch.original.Call? && batch.original.cwds.Some?
    && |replies| + batch.remaining == |batch.original.cwds.value|
    && batch.error == LastError(replies)
    && Join(replies) == Some(batch.result)
  }

  /** All split requests are in order while `left` parts of `issuing` are still to be issued. */
  ghost predicate Batching(batches: map<Id, Batch>, batchRequests: map<Id, Id>, parts: map<Id, seq<Message>>,
                           issuing: Option<Id>, left: nat)
  {
    && parts.Keys == batches.Keys
    && (forall id :: id in batchRequests ==> batchRequests[id] in batches)
    && (forall g :: g in batches ==>
          BatchOk(batches[g], Open(batchRequests, g), if issuing == Some(g) then left else 0, parts[g]))
  }

  /** The single answer of a split request. */
  function BatchReply(original: Message, error: Option<Json>, result: map<string, Field>): Message {
    if error.Some? then Reply(original.id, error, None, None) else Reply(original.id, None, Some(result), None)
  }

  // Requests of the servers to the client.

  function AskedPair(a: Asked): multiset<(nat, Id)> { multiset{(a.owner, a.id)} }

  function ReturnedPair(line: Line): multiset<(nat, Id)> {
    if line.via.Answer? && line.message.id.Some? then multiset{(line.to, line.message.id.value)} else multiset{}
  }

  /** Every request of a server is open, was answered to that server once, or was dropped with it. */
  ghost predicate Asking(s: State) {
    && QuestionsOk(s.replies, s.written, s.asked, s.dropped)
    && OwnersKnown(s.replies, s.dropped, s.backends)
  }

  ghost predicate QuestionsOk(replies: map<Id, Asked>, written: seq<Line>, asked: multiset<(nat, Id)>,
                              dropped: multiset<(nat, Id)>)
  {
    Tally(replies, AskedPair) + Sum(written, ReturnedPair) + dropped == asked
  }

  ghost predicate OwnersKnown(replies: map<Id, Asked>, dropped: multiset<(nat, Id)>, backends: seq<Backend>) {
    && (forall p :: p in dropped ==> p.0 < |backends| && !backends[p.0].live)
    && (forall id :: id in replies ==> replies[id].owner < |backends|)
  }

  // What has been written to the servers.

  ghost predicate Greeted(written: seq<Line>, b: nat) {
    exists j :: 0 <= j < |written| && written[j].to == b && written[j].via.Greeting?
  }

  predicate AfterHandshake(via: Via) {
    via.Resume? || via.Dispatch?
  }

  ghost predicate LineOk(written: seq<Line>, i: nat, backends: seq<Backend>)
    requires i < |written|
  {
    && written[i].to < |backends|
    && (RunsThread(written[i].message) ==> backends[written[i].to].workspace.Some?)
    && (AfterHandshake(written[i].via) ==> Greeted(written[..i], written[i].to))
  }

  /** Threads run only in project servers, and nothing is routed before a handshake is done. */
  ghost predicate Logged(s: State) {
    LogOk(s.written, s.backends)
  }

  ghost predicate LogOk(written: seq<Line>, backends: seq<Backend>) {
    && (forall i :: 0 <= i < |written| ==> LineOk(written, i, backends))
    && (forall b :: 0 <= b < |backends| && backends[b].ready ==> Greeted(written, b))
  }

  // Which server is what.

  ghost predicate InitPending(pending: map<Id, Pending>, b: nat) {
    exists id :: id in pending && pending[id] == Pending(b, ForInitialize)
  }

  /** The servers currently in charge: the two state servers and the one of each project.
      `opening` is a server whose registration or handshake is being settled. */
  datatype Roles = Roles(projects: map<string, nat>, host: Option<nat>, common: Option<nat>, ghost opening: Option<nat>)

  function RolesOf(s: State): Roles {
    Roles(s.projects, s.host, s.common, s.opening)
  }

  predicate Current(r: Roles, b: nat) {
    r.host == Some(b) || r.common == Some(b)
  }

  predicate IsProject(r: Roles, backends: seq<Backend>, b: nat) {
    && b < |backends| && backends[b].workspace.Some? && backends[b].workspace.value in r.projects
    && r.projects[backends[b].workspace.value] == b
  }

  predicate Attached(r: Roles, backends: seq<Backend>, b: nat) {
    Current(r, b) || IsProject(r, backends, b)
  }

  predicate Initializes(w: Waiting) {
    w.ForClient? && w.original.Call? && w.original.verb.Initialize?
  }

  predicate StateServer(backends: seq<Backend>, b: nat) {
    && b < |backends| && backends[b].live && backends[b].workspace.None?
    && forall m :: m in backends[b].queue ==> !RunsThread(m)
  }

  ghost predicate StateOk(r: Roles, backends: seq<Backend>) {
    && |backends| > 0 && backends[0].workspace.None?
    && (r.host.Some? ==> r.host.value == 0 && StateServer(backends, 0))
    && (r.common.Some? ==> StateServer(backends, r.common.value))
    && (backends[0].live ==> Current(r, 0))
  }

  ghost predicate ProjectsOk(r: Roles, backends: seq<Backend>, pending: map<Id, Pending>) {
    forall root :: root in r.projects ==>
      && r.projects[root] < |backends|
      && backends[r.projects[root]].workspace == Some(root)
      && backends[r.projects[root]].live
      && (backends[r.projects[root]].ready || InitPending(pending, r.projects[root])
          || r.opening == Some(r.projects[root]))
  }

  ghost predicate OwnerOk(r: Roles, backends: seq<Backend>, p: Pending) {
    && p.owner < |backends| && backends[p.owner].live
    && (Attached(r, backends, p.owner) || r.opening == Some(p.owner))
    && (p.waiting.ForActivate? ==> IsProject(r, backends, p.owner))
    && (Initializes(p.waiting) ==> p.owner == 0)
  }

  ghost predicate OwnersOk(r: Roles, backends: seq<Backend>, pending: map<Id, Pending>) {
    forall id :: id in pending ==> OwnerOk(r, backends, pending[id])
  }

  ghost predicate ReadyOk(r: Roles, backends: seq<Backend>) {
    forall b :: 0 <= b < |backends| && backends[b].live && backends[b].ready ==> Attached(r, backends, b)
  }

  ghost predicate ActivationsOk(r: Roles, backends: seq<Backend>, activations: map<nat, seq<Activation>>) {
    forall b :: b in activations ==> IsProject(r, backends, b) && !backends[b].ready
  }

  /** The servers in use: projects are live and either ready or shaking hands, and stay
      apart from the two state servers. */
  ghost predicate Routed(s: State) {
    var r := RolesOf(s);
    && StateOk(r, s.backends) && ProjectsOk(r, s.backends, s.pending) && OwnersOk(r, s.backends, s.pending)
    && ReadyOk(r, s.backends) && ActivationsOk(r, s.backends, s.activations)
  }

  /** Thread tables name existing servers, and nothing is under way before `initialize`. */
  ghost predicate Known(s: State) {
    && Within(s.threads, |s.backends|) && Within(s.activeTurns, |s.backends|)
    && (s.initialize.Some? ==> s.initialize.value.Call? && s.initialize.value.verb.Initialize?)
    && (s.initialize.None? ==> s.pending == map[] && s.clientQueue == [])
  }

  ghost predicate Within(table: map<string, nat>, count: nat) {
    forall t :: t in table ==> table[t] < count
  }

  /** Everything but the split requests. */
  ghost predicate Core(s: State) {
    Balanced(s) && Named(s) && Routed(s) && Known(s) && Asking(s) && Logged(s)
  }

  ghost predicate Valid(s: State) {
    Core(s) && Batching(s.batches, s.batchRequests, s.parts, None, 0) && s.opening.None?
  }

  // How each change of a field moves the ledger.

  lemma HeldClientQueue(s: State, m: Message)
    ensures Held(s.(clientQueue := s.clientQueue + [m])) == Held(s) + IdOf(m)
  {
    hide Sum, Tally;
    SumPush(s.clientQueue, m, IdOf);
  }

  lemma HeldBackend(s: State, b: nat, backend: Backend)
    requires b < |s.backends|
    ensures Held(s.(backends := s.backends[b := backend])) + QueueIds(s.backends[b]) == Held(s) + QueueIds(backend)
  {
    hide Sum, Tally, QueueIds;
    SumUpdate(s.backends, b, backend, QueueIds);
    var t := s.(backends := s.backends[b := backend]);
    forall x: Id
      ensures (Held(t) + QueueIds(s.backends[b]))[x] == (Held(s) + QueueIds(backend))[x]
    {
      assert (Sum(t.backends, QueueIds) + QueueIds(s.backends[b]))[x]
          == (Sum(s.backends, QueueIds) + QueueIds(backend))[x];
    }
  }

  lemma HeldServerQueue(s: State, b: nat, m: Message)
    requires b < |s.backends|
    ensures var queue := s.backends[b].queue + [m];
            Held(s.(backends := s.backends[b := s.backends[b].(queue := queue)])) == Held(s) + IdOf(m)
  {
    hide Sum, HeldIn;
    var backend := s.backends[b].(queue := s.backends[b].queue + [m]);
    var t := s.(backends := s.backends[b := backend]);
    HeldBackend(s, b, backend);
    SumPush(s.backends[b].queue, m, IdOf);
    forall x: Id
      ensures Held(t)[x] == (Held(s) + IdOf(m))[x]
    {
      assert (Held(t) + QueueIds(s.backends[b]))[x] == (Held(s) + QueueIds(backend))[x];
    }
  }

  lemma HeldSpawned(s: State, backend: Backend)
    requires backend.queue == []
    ensures Held(s.(backends := s.backends + [backend])) == Held(s)
  {
    hide Tally;
    SumPush(s.backends, backend, QueueIds);
    assert QueueIds(backend) == multiset{};
  }

  lemma HeldPending(s: State, id: Id, pending: Pending)
    requires id !in s.pending
    ensures Held(s.(pending := s.pending[id := pending])) == Held(s) + PendingId(pending)
  {
    hide Sum, Tally;
    TallyWith(s.pending, id, pending, PendingId);
  }

  lemma HeldSettled(s: State, id: Id)
    requires id in s.pending
    ensures Held(s) == Held(s.(pending := s.pending - {id})) + PendingId(s.pending[id])
  {
    hide Sum, Tally;
    TallyWithout(s.pending, id, PendingId);
  }

  lemma PushedActivation(waiting: seq<Activation>, a: Activation)
    ensures ActivationIds(waiting + [a]) == ActivationIds(waiting) + IdOf(a.original)
    ensures ActivationIds([]) == multiset{}
  {
    SumPush(waiting, a, ActivationId);
  }

  lemma HeldActivation(s: State, b: nat, a: Activation)
    ensures var waiting := if b in s.activations then s.activations[b] else [];
            Held(s.(activations := s.activations[b := waiting + [a]])) == Held(s) + IdOf(a.original)
  {
    hide Sum, Tally, ActivationIds;
    var waiting := if b in s.activations then s.activations[b] else [];
    var t := s.(activations := s.activations[b := waiting + [a]]);
    PushedActivation(waiting, a);
    if b in s.activations {
      TallyUpdate(s.activations, b, waiting + [a], ActivationIds);
      forall x: Id
        ensures Held(t)[x] == (Held(s) + IdOf(a.original))[x]
      {
        assert (Tally(t.activations, ActivationIds) + ActivationIds(waiting))[x]
            == (Tally(s.activations, ActivationIds) + ActivationIds(waiting + [a]))[x];
      }
    } else {
      TallyWith(s.activations, b, waiting + [a], ActivationIds);
    }
  }

  lemma HeldStarted(s: State, b: nat)
    requires b in s.activations
    ensures Held(s) == Held(s.(activations := s.activations - {b})) + ActivationIds(s.activations[b])
  {
    hide Sum, Tally;
    TallyWithout(s.activations, b, ActivationIds);
  }

  lemma HeldBatch(s: State, g: Id, batch: Batch)
    requires g !in s.batches
    ensures Held(s.(batches := s.batches[g := batch])) == Held(s) + IdOf(batch.original)
  {
    hide Sum, Tally;
    TallyWith(s.batches, g, batch, BatchId);
  }

  lemma HeldSameBatch(s: State, g: Id, batch: Batch)
    requires g in s.batches && batch.original == s.batches[g].original
    ensures Held(s.(batches := s.batches[g := batch])) == Held(s)
  {
    hide Sum, Tally;
    TallyUpdate(s.batches, g, batch, BatchId);
    var t := s.(batches := s.batches[g := batch]);
    forall x: Id
      ensures Held(t)[x] == Held(s)[x]
    {
      assert (Tally(t.batches, BatchId) + BatchId(s.batches[g]))[x] == (Tally(s.batches, BatchId) + BatchId(batch))[x];
    }
  }

  lemma HeldJoined(s: State, g: Id)
    requires g in s.batches
    ensures Held(s) == Held(s.(batches := s.batches - {g})) + IdOf(s.batches[g].original)
  {
    hide Sum, Tally;
    TallyWithout(s.batches, g, BatchId);
  }

  lemma HeldPrinted(s: State, m: Message)
    ensures Held(s.(stdout := s.stdout + [m])) == Held(s) + AnswerOf(m)
  {
    hide Sum, Tally;
    SumPush(s.stdout, m, AnswerOf);
  }

}
