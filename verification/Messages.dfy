/** The JSON-RPC messages of crates/codex-start-host/src/adapter_broker.rs, reduced
    to the parts the broker reads or rewrites. */
module Messages {
  import opened Options

  /** A message id: chosen by a peer, or minted by the broker as a fresh UUID. */
  datatype Id = Given(text: string) | Fresh(serial: nat)

  /** Method names, grouped as the broker classifies them. */
  datatype Verb =
    | Initialize
    | Initialized
    | ThreadStart
    | ThreadResume
    | ThreadFork
    | ThreadRead
    | ThreadUnsubscribe
    | ThreadArchive
    | SharedRead(name: string)
    | Catalogue(name: string)
    | Execution(name: string)
    | CommandExec
    | TurnStarted
    | TurnCompleted
    | ThreadClosed
    | Other(name: string)

  type Json = string

  /** The `thread` object of a notification or a result. */
  datatype Thread = Thread(id: Option<string>, cwd: Option<string>)

  datatype Field = Items(items: seq<Json>) | Single(value: Json)

  datatype Message =
    | Call(id: Option<Id>, verb: Verb, thread: Option<string>, cwd: Option<string>,
           cwds: Option<seq<Option<string>>>, about: Option<Thread>, body: Json)
    | Reply(id: Option<Id>, error: Option<Json>, result: Option<map<string, Field>>, about: Option<Thread>)

  predicate SharedState(verb: Verb) {
    verb.ThreadStart? || verb.ThreadResume? || verb.ThreadFork? || verb.ThreadRead? || verb.SharedRead?
  }

  predicate ProjectRead(verb: Verb) {
    verb.Catalogue? || verb.ThreadRead? || verb.SharedRead?
  }

  /** Work of a thread: what must never reach a server without the project mounted. */
  predicate RunsThread(m: Message) {
    m.Call? && m.verb.Execution? && m.thread.Some?
  }

  function WithId(m: Message, id: Option<Id>): Message {
    match m
    case Call(_, verb, thread, cwd, cwds, about, body) => Call(id, verb, thread, cwd, cwds, about, body)
    case Reply(_, error, result, about) => Reply(id, error, result, about)
  }

  function RpcError(request: Message, reason: Json): Message {
    Reply(request.id, Some(reason), None, None)
  }

  function IdOf(m: Message): multiset<Id> {
    if m.id.Some? then multiset{m.id.value} else multiset{}
  }

  /** The id a line printed to the client answers. */
  function AnswerOf(m: Message): multiset<Id> {
    if m.Reply? then IdOf(m) else multiset{}
  }
}
