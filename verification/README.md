# codex-start: models and proofs

codex-start runs Codex app servers in project containers. This project models the
parts of it whose behaviour is hardest to see from the code, and proves what they
promise:

* the **adapter broker**, one client connection multiplexed over many app-server
  processes (`Messages`, `Ledger`, `BatchJoin`, `Broker*`);
* **layered configuration**: the in-place deep merge (`Toml`, `Layers`) with its record of
  where each setting came from (`Records`, `ExactRecords`, `RecordLimits`), profile chains
  (`Lineage`, `Resolver`), nested environment overrides (`Tables`, `Overrides`), the flattener
  of native Codex settings (`Flattening`, `Keys`, `Quoting`, `CodexKeys`), and the spelling
  suggestion (`EditDistance`);
* **environment manifests** and their inheritance (`Resources`, `Environments`);
* **texts and encodings**: the JSONC cleaner and one-setting editor (`JsonText`,
  `JsonReading`, `Jsonc*`), the tmux command line against a shell and against the editor
  splitter (`ShellWords`), and the content hash (`ContentHash`);
* **arithmetic and transfer**: calendar dates from day counts (`CivilDate`) and the chunked
  download (`Download`).

`Options` holds the option type that all of them use.

## How the models are built

**The broker** is the class `Broker.Broker`, with one method for each method of the program
and one call for each event. Its fields form one record, `BrokerState.State`, so that a step
can be named as a function of the state before it; ghost fields of the record keep the ids
received, the ids that are in local variables at the moment, and the parts of split
requests. Whatever the program learns from outside is arbitrary: whether a write to a server
succeeds, what a directory lookup finds, whether an attachment can be copied, whether a
server has been idle for long enough, what a file system request answers. UUIDs are numbers
that are never reused and differ from client ids. An error that leaves `serve` ends the run
(`running` is false); an error of a client request becomes an error reply, as in `serve`.

The invariant `BrokerState.Valid` has six parts. *Balanced*: every request received is held
or answered as often as it is owed. *Named*: the broker's own ids never meet client ids.
*Routed*: which servers are in charge, and that projects and the two state servers stay
apart. *Asking*: the requests of the servers. *Logged*: everything written to a server so
far. *Batching*: the split requests. Every event of every run keeps it (`Broker.Broker.Serve`);
the lemmas of `BrokerPlaces` say what it means for a single request, server or line, and those
of `BrokerRuns` what follows for whole runs: which events end one, and what is left at the end.

**Settings** are trees of tables and scalars; an array is a scalar, as the merge treats it.
Provenance is kept by dotted path, as in the program, and any keys are allowed. What it should
say is `Layers.Origins`, a map by path; `ExactRecords.Keyed` ties the two together.

**Loops over ordered maps** visit keys in ascending order (`Keys.Ascending`), except where
the result does not depend on it (joining the fields of a reply).

**JSONC** is modelled on bytes (one `char` a byte) with a JSON reader and writer of its own.

## What the proofs found

* A request that the client sends before its `initialize` is answered is parked. A parked
  request that fails when it is served ends the run (adapter_broker.rs:939-941;
  `Broker.Broker.FlushClient`). The same failure of a request that was not parked is an error
  reply (222-229; `Broker.Broker.TakeIn`). A `thread/start` or `command/exec` that names no
  directory and no thread always fails (`BrokerFacts.Homeless`), so it shows both ends
  (`Broker.ParkedOrRefused`).
* The test for `thread/start` in `host_state_backend` never applies, since `thread/start` is
  no catalogue method (425-428), and notifications of a native server are never swallowed,
  since only the first server is ever native (1010-1024; `BrokerState.StateOk`).
* `initialized` sent as a request, with an id, is never answered (525-527;
  `BrokerRuns.InitializedIsNeverAnswered`).
* After `release_control_writer` closed the shared server, a late reply of that server ends
  the run as an unknown id (881-885; `Broker.ReleasedReplyEndsTheRun`). So does any reply of a
  server that is closed (`BrokerRuns.LateReplyIsFatal`).
* Maintenance never looks at waiting activations when it evicts a server. That is safe only
  because a server with waiting activations still has its handshake pending
  (`BrokerFacts.UnusedIsIdle`).
* Keys with dots can collide in the provenance map: the layers `"a.b" = ..` and
  `a = { b = .. }` leave two settings with two sources and one record
  (`RecordLimits.DotsCollide`). The record is exact for all layers with settings at some paths
  if and only if the dotted paths tell which path is above which (`RecordLimits.ExactWhenTold`);
  nonempty keys without dots do (`RecordLimits.PlainTells`).
* A native Codex key or string that holds U+007F is written raw into a TOML basic string, which
  TOML does not allow; exactly such keys and values do not read back
  (`CodexKeys.ArgumentReadsBack`).
* The order of the nested environment overrides can decide whether they are accepted: first
  `a = {}` and then `a.x = 1` works, the other order does not (`Overrides.TablesDependOnOrder`).
  That is so exactly if some override continues another one into a table that has room for it,
  and no path is empty and no two overrides fail in both orders (`Overrides.AnyOrder`). Whatever
  is accepted builds the same table in every order.
* The editor splitter loses exactly the empty arguments of a printed command line
  (`ShellWords.SplitterReadsBack`).
* The second pass of the JSONC cleaner may have more to do on its own output if the text is
  no JSON anyway (`JsoncFacts.TwoCommas`); on every text that `parse` accepts it has not.
  `{,}` is accepted as an empty object (`JsoncFacts.LoneComma`).

## Model

| member | source | states |
|---|---|---|
| `BrokerPlaces.OncePerRequest` | crates/codex-start-host/src/adapter_broker.rs:501-622 | in every reachable state a request received once is in exactly one place: parked, in one server queue, under way, waiting for a handshake, split, or answered once |
| `BrokerPlaces.AnswersAreOwed` | crates/codex-start-host/src/adapter_broker.rs:814-828 | no id is answered more often than it was asked, and no id made up by the broker ever reaches the client as an answer |
| `BrokerPlaces.OncePerQuestion` | crates/codex-start-host/src/adapter_broker.rs:502-512 | a request a server made once is in exactly one place: open under one fresh id, answered once to that very server under its own id, or gone with the dead server |
| `BrokerRuns.NothingIsLost` | crates/codex-start-host/src/adapter_broker.rs:1145-1194 | once every server has ended and none came back, nothing is under way, waiting or split, and every request received was answered or is still parked |
| `BrokerRuns.EndedForGood` | crates/codex-start-host/src/adapter_broker.rs:386-413 | a server that has ended and did not come back owns nothing, has an empty queue and is in no table, whatever happens to the others |
| `BrokerRuns.SentOnce` | crates/codex-start-host/src/adapter_broker.rs:210-245 | a request sent once is in exactly one place after any run from the start |
| `BrokerRuns.AnsweredInRuns` | crates/codex-start-host/src/adapter_broker.rs:210-245 | in any run no id is answered more often than requests under it were owed an answer |
| `BrokerRuns.InitializedIsNeverAnswered` | crates/codex-start-host/src/adapter_broker.rs:525-527 | an id under which only accepted `initialized` requests were sent never appears in an answer |
| `BrokerRuns.LateReplyEndsTheRun` | crates/codex-start-host/src/adapter_broker.rs:881-885 | a reply of a server whose end was seen earlier ends the run |
| `BrokerRuns.LateReplyIsFatal` | crates/codex-start-host/src/adapter_broker.rs:881-885 | so does a reply of any closed server |
| `BrokerRuns.TameRuns` | crates/codex-start-host/src/adapter_broker.rs:210-245 | no run ends with a request of the client, a round of maintenance, the end of a server that is not the first, or a notification or request of a known server |
| `BrokerPlaces.EveryLine` | crates/codex-start-host/src/adapter_broker.rs:590-623 | no line ever written to a server in charge of state runs a thread, and nothing dispatched or resumed precedes the acknowledged handshake of its server |
| `Broker.Broker.Serve` | crates/codex-start-host/src/adapter_broker.rs:210-245 | any sequence of events is taken up to the first that ends the run: no event before it was fatal, and it was not a safe one; in every state in between the invariant holds and no request is lost in a local variable; the ids received are those the events are owed, the questions those the servers asked, nothing printed or written is taken back, and servers that ended are gone |
| `Broker.Broker.TakeEvent` | crates/codex-start-host/src/adapter_broker.rs:213-243 | the same for one event: safe ones keep the run going, fatal ones end it, and only the outcome of the others depends on what happens outside |
| `Broker.ParkedEndsTheRun` | crates/codex-start-host/src/adapter_broker.rs:936-942 | a client that sends `initialize` and then a request without a place ends the run as soon as the first server accepts |
| `Broker.ReadyIsRefused` | crates/codex-start-host/src/adapter_broker.rs:222-229 | sent after that, the same request gets an error reply and the run goes on |
| `Broker.ParkedOrRefused` | crates/codex-start-host/src/adapter_broker.rs:222-229 | both in one statement: what a failing request does to the run depends on whether it was parked |
| `Broker.ReleasedReplyEndsTheRun` | crates/codex-start-host/src/adapter_broker.rs:659-688 | a reply of the shared server that arrives after it was closed for a thread ends the run |
| `Broker.Broker.constructor` | crates/codex-start-host/src/adapter_broker.rs:116-207 | the initial state satisfies the invariant, for a native first server as for a shared one |
| `Broker.Broker.TakeIn` | crates/codex-start-host/src/adapter_broker.rs:222-230 | a client request never ends the run: it is taken over, parked, or refused, and one without a place is refused with an error reply once the client is ready; a reply to an unknown question or to a closed server ends the run |
| `Broker.Broker.Client` | crates/codex-start-host/src/adapter_broker.rs:501-622 | `initialize` goes to the first server, nothing precedes it, later messages are parked until it is answered, a request without a place fails once they may be served, and whatever is accepted is accounted for once |
| `Broker.Broker.StartClient` | crates/codex-start-host/src/adapter_broker.rs:512-517 | the client's `initialize` is recorded and written to the first server under a fresh id |
| `Broker.Broker.AnswerLocally` | crates/codex-start-host/src/adapter_broker.rs:535-553 | a file system request is answered at once under its own id |
| `Broker.Broker.AnswerServer` | crates/codex-start-host/src/adapter_broker.rs:502-512 | the client's reply goes to the server that asked, under the id that server chose; an unknown id or a closed server ends the run |
| `Broker.Broker.Route` | crates/codex-start-host/src/adapter_broker.rs:554-622 | a thread known in a project server stays there for every method that is not a catalogue or split request; a new execution without a place fails; all other routes keep the invariant |
| `Broker.Broker.RouteRead` | crates/codex-start-host/src/adapter_broker.rs:562-575 | reading methods use the thread's project server or a running server of the directory, and otherwise change nothing |
| `Broker.Broker.HostStateBackend` | crates/codex-start-host/src/adapter_broker.rs:415-448 | only catalogue methods are sent to the native server, only while it is in charge and runs, and only if every directory of the request is text |
| `Broker.Broker.RouteThread` | crates/codex-start-host/src/adapter_broker.rs:594-622 | a thread of a project server stays there; whatever route is taken, no thread is run by a state server |
| `Broker.Broker.ForwardToCommon` | crates/codex-start-host/src/adapter_broker.rs:582-588 | on success the message is queued or written at exactly the shared server, the present one or one just started |
| `Broker.Broker.ForwardToProject` | crates/codex-start-host/src/adapter_broker.rs:604-606 | on success the message is queued or written at exactly the server of some project root, the present one or one just started; else it stays in hand |
| `Broker.Broker.Forward` | crates/codex-start-host/src/adapter_broker.rs:621 | a routed message is queued or written at exactly that server |
| `Broker.Broker.Locate` | crates/codex-start-host/src/adapter_broker.rs:607-612 | the lookup of a thread is written to the shared server under a fresh id with the original waiting for its reply |
| `Broker.Broker.ActivateThread` | crates/codex-start-host/src/adapter_broker.rs:624-634 | on success the thread is being looked up at the shared server, or waits at a project server; the original is accounted for once |
| `Broker.Broker.ActivateAt` | crates/codex-start-host/src/adapter_broker.rs:640-657 | on success the original waits at a project server: for its handshake if that is under way, else for the reply to a `thread/resume` |
| `Broker.Broker.ReleaseControlWriter` | crates/codex-start-host/src/adapter_broker.rs:659-688 | the shared server that holds the thread is closed, and what it had is answered with errors; otherwise nothing changes |
| `Broker.Broker.StartActivation` | crates/codex-start-host/src/adapter_broker.rs:690-705 | the resume request is written under a fresh id, the original waiting for its reply; on failure nothing but a UUID is used up |
| `Broker.Broker.Dispatch` | crates/codex-start-host/src/adapter_broker.rs:707-739 | before the handshake a message joins the end of the queue, afterwards it is written; a failure leaves the state as it was |
| `Broker.Broker.Deliver` | crates/codex-start-host/src/adapter_broker.rs:725-738 | a request is written under a fresh id and waits for its reply, a notification is just written |
| `Broker.Broker.Request` | crates/codex-start-host/src/adapter_broker.rs:814-828 | a request is pending exactly if its line was written |
| `Broker.Broker.Send` | crates/codex-start-host/src/adapter_broker.rs:830-844 | a line is written only to a live server, or not at all |
| `Broker.Broker.Spawn` | crates/codex-start-host/src/adapter_broker.rs:247-328 | a new server has its handshake pending, or is left unused if the handshake could not be sent |
| `Broker.Broker.Common` | crates/codex-start-host/src/adapter_broker.rs:450-462 | the live shared server is reused and nothing changes, else a new one takes its place or could not be started |
| `Broker.Broker.Project` | crates/codex-start-host/src/adapter_broker.rs:483-492 | the server returned is the one of a project root, running or just started and registered, and is not in charge of state |
| `Broker.Broker.Server` | crates/codex-start-host/src/adapter_broker.rs:846-1008 | a notification or request always goes on; a reply ends the run if it is not expected of this server, does not fit the other parts of its split request, or accepts `initialize` with a request without a place parked, and goes on if nothing outside can stop it |
| `Broker.Broker.ServerCall` | crates/codex-start-host/src/adapter_broker.rs:851-876 | a notification is passed on as it is and a request under a fresh id that leads back to its server and id |
| `Broker.Broker.NoteThread` | crates/codex-start-host/src/adapter_broker.rs:852-869 | a started turn is entered and an ended one removed, a closed thread forgotten and any other thread named bound to the server with its directory; no other entry changes |
| `Broker.Broker.Ask` | crates/codex-start-host/src/adapter_broker.rs:870-874 | the fresh id is recorded with the server and its own id |
| `Broker.Broker.ServerReply` | crates/codex-start-host/src/adapter_broker.rs:877-891 | a reply counts only if it is pending for that server; what waited for it is settled once |
| `Broker.Broker.Settle` | crates/codex-start-host/src/adapter_broker.rs:891-1006 | a lookup, a refused handshake or resume, and a part or plain reply that fits always go on; one that does not fit never does |
| `Broker.Broker.HandshakeReply` | crates/codex-start-host/src/adapter_broker.rs:945-958 | a refused handshake closes the server; an accepted one writes the acknowledgement, then the resumes of waiting threads, then the queued messages, each group in order of arrival, and nothing else |
| `Broker.Broker.Open` | crates/codex-start-host/src/adapter_broker.rs:949-950 | the server becomes ready with its handshake acknowledged and its waiting threads in hand |
| `Broker.Broker.ResumeAll` | crates/codex-start-host/src/adapter_broker.rs:951-953 | the waiting threads are resumed in order of arrival |
| `Broker.Broker.FlushQueue` | crates/codex-start-host/src/adapter_broker.rs:954-956 | the queued messages are written in order of arrival and nothing else is |
| `Broker.Broker.ClientReply` | crates/codex-start-host/src/adapter_broker.rs:892-944 | the reply settles the original once, whatever queues it opens, or ends the run |
| `Broker.Broker.RespondAs` | crates/codex-start-host/src/adapter_broker.rs:932-933 | the reply goes out under the id of the original |
| `Broker.Broker.NoteReply` | crates/codex-start-host/src/adapter_broker.rs:893-931 | a started, resumed or forked thread is bound to its server and, on a state server, its request kept as the template of a later resume; closing methods forget the thread, other accepted ones but reading bind it; no other entry changes |
| `Broker.Broker.FlushClient` | crates/codex-start-host/src/adapter_broker.rs:939-941 | every parked request is settled once, or one of them failed and ended the run; one without a place always does |
| `Broker.Broker.ServeQueues` | crates/codex-start-host/src/adapter_broker.rs:934-942 | the client is ready from now on, and what waited at the server and for the client is settled once; a parked request without a place ends the run |
| `Broker.Broker.LocateReply` | crates/codex-start-host/src/adapter_broker.rs:959-998 | without a directory the original is refused; with one an execution waits at a project server, anything else is queued or written at one, or it is refused; accounted for once either way |
| `Broker.Broker.ActivateReply` | crates/codex-start-host/src/adapter_broker.rs:999-1006 | a refused resume answers the original with that error, an accepted one sends the original to the same project server |
| `Broker.Broker.SplitRequest` | crates/codex-start-host/src/adapter_broker.rs:1037-1070 | after the loop every part is open or joined, and `remaining` counts the open ones |
| `Broker.Broker.IssuePart` | crates/codex-start-host/src/adapter_broker.rs:1048-1068 | each directory becomes one part, open or failed, so that the parts not issued are one fewer |
| `Broker.Broker.Respond` | crates/codex-start-host/src/adapter_broker.rs:1072-1118 | a reply to a part is joined, the last one answers the whole; any other reply goes to the client; it fails exactly if the part does not fit the others |
| `Broker.Broker.JoinPart` | crates/codex-start-host/src/adapter_broker.rs:1073-1117 | the split request is answered exactly when no part is left, with an error if any part failed and the joined fields otherwise |
| `BrokerBatches.RespondedKeeps` | crates/codex-start-host/src/adapter_broker.rs:1072-1118 | joining a reply keeps `remaining` equal to the open parts plus those not issued yet, and the joined state that of the replies so far |
| `BrokerBatches.IssuedKeeps` | crates/codex-start-host/src/adapter_broker.rs:1049-1054 | issuing a part moves one from the parts not issued to the open ones |
| `BatchJoin.JoinMeaning` | crates/codex-start-host/src/adapter_broker.rs:1084-1106 | the joined answer has exactly the fields some part has: a list is the union of the parts' lists without repeats, a single value the last one |
| `BatchJoin.LastErrorMeaning` | crates/codex-start-host/src/adapter_broker.rs:1082-1084 | there is an error exactly if some part failed, and it is that of the last part that did |
| `BatchJoin.PushItems` | crates/codex-start-host/src/adapter_broker.rs:1096-1100 | the loop appends the items not there yet, in order |
| `BatchJoin.PushPart` | crates/codex-start-host/src/adapter_broker.rs:1084-1106 | the loop over the fields joins them all, or fails exactly where a list meets a single value |
| `Broker.Broker.Closed` | crates/codex-start-host/src/adapter_broker.rs:1145-1194 | every request the server had is answered once, with errors only, nothing of other servers changes, and the server is in no table; closing an idle server answers nothing |
| `BrokerClosing.AllAnswered` | crates/codex-start-host/src/adapter_broker.rs:1145-1194 | between the two states of a closing, the answers to each id grow by exactly the number of requests the server held under it |
| `BrokerClosing.ShutKeeps` | crates/codex-start-host/src/adapter_broker.rs:1146-1157 | without the server, roles, threads, questions and log are still in order |
| `Broker.Broker.FailPending` | crates/codex-start-host/src/adapter_broker.rs:1158-1176 | each request under way at the server is answered with an error, in any order, and the handshake without one |
| `Broker.Broker.FailWaiters` | crates/codex-start-host/src/adapter_broker.rs:1177-1183 | each request waiting for the handshake is answered with an error |
| `Broker.Broker.FailQueue` | crates/codex-start-host/src/adapter_broker.rs:1184-1192 | each queued request is answered with an error, and queued notifications are dropped |
| `Broker.Broker.Maintain` | crates/codex-start-host/src/adapter_broker.rs:1196-1296 | a maintenance round prints the changes and loses nothing: no other line for the client, queue, pending entry, activation, question or split request differs |
| `Broker.Broker.EvictIdle` | crates/codex-start-host/src/adapter_broker.rs:1216-1290 | a server is closed only if nothing depends on it, and then no answer, queue, pending entry, activation or split request differs |
| `BrokerFacts.UnusedIsIdle` | crates/codex-start-host/src/adapter_broker.rs:1216-1228 | a server without pending entries has no waiting activations either, which maintenance does not look at |
| `BrokerFacts.ShutLosesNothing` | crates/codex-start-host/src/adapter_broker.rs:1145-1194 | closing an idle server changes no request, answer or split request |
| `EditDistance.Distance` | crates/codex-start-core/src/config.rs:2684-2698 | the two-row loop returns the Levenshtein distance |
| `EditDistance.Metric` | crates/codex-start-core/src/config.rs:2684-2698 | the distance is symmetric, zero exactly between equal texts, and obeys the triangle inequality |
| `EditDistance.WithinBudget` | crates/codex-start-core/src/config.rs:2676-2681 | some script of at most `budget` insertions, deletions and substitutions exists exactly if the distance is within the budget |
| `EditDistance.NoShorterScript` | crates/codex-start-core/src/config.rs:2684-2698 | no script of edits is shorter than the distance |
| `EditDistance.ShortestScript` | crates/codex-start-core/src/config.rs:2684-2698 | a script of exactly the distance exists |
| `EditDistance.Suggest` | crates/codex-start-core/src/config.rs:2602-2682 | the suggestion is the first of the closest names, and there is none exactly if no name is within three edits |
| `Toml.PrefixTest` | crates/codex-start-core/src/config.rs:1946-1949 | for keys that are nonempty and without dots, the string test of dotted paths is the prefix test of paths |
| `Layers.SurvivesMeaning` | crates/codex-start-core/src/config.rs:1910-1944 | a leaf survives a layer exactly if the layer has nothing at its path and no non-table above it |
| `Layers.MergedLeaves` | crates/codex-start-core/src/config.rs:1910-1944 | the leaves after a merge are those of the layer and those that survive it, each with its own value |
| `Layers.LastWriterWins` | crates/codex-start-core/src/config.rs:1780-1792 | after any fold of layers a leaf is there exactly if no layer behind its last writer touches it, and has that writer's value |
| `Layers.OriginsExact` | crates/codex-start-core/src/config.rs:1780-1792 | the recorded paths are exactly the leaves of the result, each with the layer that last wrote it |
| `ExactRecords.ExactFold` | crates/codex-start-core/src/config.rs:1780-1792 | the record kept by dotted path agrees with the origins by path after any layers whose paths its strings tell apart |
| `ExactRecords.FieldsExact` | crates/codex-start-core/src/config.rs:1780-1792 | then it names exactly the leaves of the result, each once and with the layer that last wrote it |
| `ExactRecords.AllExact` | crates/codex-start-core/src/config.rs:1780-1805 | the same with the records of the homes added |
| `ExactRecords.HomeOriginsMeaning` | crates/codex-start-core/src/config.rs:1793-1805 | each setting of a home that a document defines has that document as origin; no other origin changes |
| `ExactRecords.KeyedRecord` | crates/codex-start-core/src/config.rs:1951-1969 | recording the leaves of a value adds exactly their origins |
| `ExactRecords.KeyedWithout` | crates/codex-start-core/src/config.rs:1946-1949 | removing by dotted path removes exactly the origins at and below the path |
| `ExactRecords.KeyedMerge` | crates/codex-start-core/src/config.rs:1910-1944 | merging a value leaves the records of the surviving leaves and of the value's |
| `RecordLimits.ExactWhenTold` | crates/codex-start-core/src/config.rs:1910-1969 | all layers with settings at given paths are recorded exactly if and only if the dotted test agrees with the prefix test on those paths (a longer path first excepted, which is never compared) |
| `RecordLimits.PlainTells` | crates/codex-start-core/src/config.rs:1946-1949 | it agrees for keys that are nonempty and without dots |
| `RecordLimits.DotsCollide` | crates/codex-start-core/src/config.rs:1921-1925 | `"a.b"` and `a` with `b` are two leaves with two origins and one record, which names only the later |
| `RecordLimits.SameString` | crates/codex-start-core/src/config.rs:1966-1968 | any two incomparable paths with one dotted path overwrite each other's record |
| `RecordLimits.RemovedWrongly` | crates/codex-start-core/src/config.rs:1946-1949 | a setting whose dotted path continues an unrelated one loses its record when that one is written again |
| `RecordLimits.KeptWrongly` | crates/codex-start-core/src/config.rs:1946-1949 | a setting whose dotted path does not continue that of a path above it keeps its record when that one replaces it |
| `Records.Provenance.constructor` | crates/codex-start-core/src/config.rs:1781 | recording starts empty |
| `Records.Provenance.RecordLeaves` | crates/codex-start-core/src/config.rs:1951-1969 | on any value the recursion records the leaves in key order, as `ExactRecords.KeyedRecord` takes it up |
| `Records.Provenance.RemoveSubtree` | crates/codex-start-core/src/config.rs:1946-1949 | the records at the path and below its string go |
| `Records.Provenance.MergeValue` | crates/codex-start-core/src/config.rs:1910-1944 | on any two values the in-place merge yields the merged value, and the record is that of merging key by key, as `ExactRecords.KeyedMerge` takes it up |
| `Lineage.WalkMeaning` | crates/codex-start-core/src/config.rs:1882-1903 | following `extends` lists the ancestors, oldest first, or names an ancestor that is unknown or one that repeats |
| `Lineage.WalkExact` | crates/codex-start-core/src/config.rs:1882-1903 | on every finite map the walk succeeds exactly if some ancestor extends nothing, and fails exactly on a missing name or a cycle |
| `Lineage.Exclusive` | crates/codex-start-core/src/environment.rs:573-594 | reaching a root, missing a name and running in circles exclude each other |
| `Resolver.SortIsStable` | crates/codex-start-core/src/config.rs:1758 | the order of the layers is by kind, and as before within a kind |
| `Resolver.StableOrderIsUnique` | crates/codex-start-core/src/config.rs:1777 | there is only one such order |
| `Resolver.SelectedIsMerged` | crates/codex-start-core/src/config.rs:1759-1764 | the profile selected is the `profile` setting of all layers merged without profiles |
| `Resolver.HigherKindWins` | crates/codex-start-core/src/config.rs:1574-1585 | a leaf of the result is left alone by every layer of a higher kind and by every later one of its writer's kind |
| `Resolver.ConfigResolver.constructor` | crates/codex-start-core/src/config.rs:1666-1684 | a resolver starts with the built-in defaults as its only layer |
| `Resolver.ConfigResolver.AddLayer` | crates/codex-start-core/src/config.rs:1686-1693 | a layer is appended unless it claims to be a profile |
| `Resolver.ConfigResolver.CollectProfileLayers` | crates/codex-start-core/src/config.rs:1882-1903 | the recursion with its stack appends the chain, ancestors first, and restores the stack, or fails with the cycle or the unknown name |
| `Resolver.ConfigResolver.MergeLayers` | crates/codex-start-core/src/config.rs:1780-1792 | the loop yields the left fold of the layers, whatever their keys, and its record |
| `Resolver.ConfigResolver.RecordHomes` | crates/codex-start-core/src/config.rs:1793-1805 | the homes with a source are recorded behind the settings, by name |
| `Resolver.ConfigResolver.Resolve` | crates/codex-start-core/src/config.rs:1751-1805 | resolution fails exactly on a broken chain of the selected profile; else the layers are given and profile layers in stable order of kind, and result and record are theirs with the homes added |
| `Tables.InsertTomlPath` | crates/codex-start-core/src/config.rs:1858-1880 | insertion fails exactly if the path is empty, taken, or runs through a value; else the value is at the path, tables above it, and all else as before |
| `Overrides.InsertAll` | crates/codex-start-core/src/config.rs:1820-1844 | inserting values one by one succeeds exactly if each path is nonempty and fits behind every one before it, and what is then at each path is determined |
| `Overrides.AnyOrder` | crates/codex-start-core/src/config.rs:1820-1848 | all orders of the overrides succeed or fail alike exactly if no override continues another into a table with room for it, or none succeeds anyway; whatever succeeds builds the same table |
| `Overrides.SomeOrder` | crates/codex-start-core/src/config.rs:1820-1848 | some order succeeds exactly if no path is empty and no two overrides clash in both orders |
| `Overrides.ScalarsInAnyOrder` | crates/codex-start-core/src/config.rs:1820-1848 | scalars are accepted in every order or none: exactly if no path is empty, equals or is a prefix of another |
| `Overrides.SameTable` | crates/codex-start-core/src/config.rs:1820-1848 | two orders that succeed build the same table |
| `Overrides.TablesDependOnOrder` | crates/codex-start-core/src/config.rs:1866-1880 | a table and a setting inside it are accepted in one order only |
| `Tables.SameShapes` | crates/codex-start-core/src/config.rs:1858-1880 | a value is determined by what is found at every path |
| `Flattening.FlatMeaning` | crates/codex-start-core/src/config.rs:2561-2579 | the flattened entries are exactly the leaves with their values |
| `Flattening.FlatOnce` | crates/codex-start-core/src/config.rs:2561-2579 | no leaf is listed twice |
| `Flattening.FlatApart` | crates/codex-start-core/src/config.rs:2561-2579 | the flattened paths are prefix-free |
| `Flattening.Rebuilt` | crates/codex-start-core/src/config.rs:2561-2579 | inserting all flattened leaves rebuilds the table without its empty sub-tables, and nothing else is built from them |
| `Flattening.FullStays` | crates/codex-start-core/src/config.rs:2561-2579 | a table without empty sub-tables is rebuilt as it was |
| `CodexKeys.Flattener.FlattenCodexTable` | crates/codex-start-core/src/config.rs:2561-2579 | the recursion appends every leaf in key order under its rendered path |
| `CodexKeys.KeyReadsBack` | crates/codex-start-core/src/config.rs:2581-2591 | a rendered key is read back by TOML's rules as the same segments exactly if none holds U+007F, and is no key at all otherwise |
| `CodexKeys.ArgumentReadsBack` | crates/codex-start-core/src/config.rs:2581-2600 | the whole `key="value"` of a string setting reads back exactly if neither its key nor its value holds U+007F |
| `CodexKeys.ArgumentsReadBack` | crates/codex-start-core/src/config.rs:982-992 | each rendered argument names the leaf it came from and holds its value, exactly if it is printable |
| `Keys.AscendingAscends` | crates/codex-start-core/src/config.rs:2566 | an ordered map is visited in ascending order of its keys |
| `Resources.MergeById` | crates/codex-start-core/src/environment.rs:741-759 | the loops compute the merge by id |
| `Resources.MergedMeaning` | crates/codex-start-core/src/environment.rs:741-759 | a resource is in the merge as the child defines it if the child names its id and keeps it, and as the parent has it if the child does not name it |
| `Resources.ValuesMeaning` | crates/codex-start-core/src/environment.rs:758 | the merged list has each entry once, by ascending id |
| `Resources.LastNamingWins` | crates/codex-start-core/src/environment.rs:645-705 | along a chain a resource is present exactly if the last manifest naming its id keeps it, and then as defined there |
| `Environments.Deduplicate` | crates/codex-start-core/src/environment.rs:779-785 | the filter with its set of seen values computes the list without repeats |
| `Environments.DeduplicatedMeaning` | crates/codex-start-core/src/environment.rs:779-785 | every value is kept once, where it first occurs |
| `Environments.MergeManifest` | crates/codex-start-core/src/environment.rs:645-705 | the field updates yield the inherited manifest, unless the merged settings cannot be read back |
| `Environments.Registry.constructor` | crates/codex-start-core/src/environment.rs:479-508 | a registry holds the manifests given |
| `Environments.Registry.Ancestry` | crates/codex-start-core/src/environment.rs:573-594 | the loop terminates on every registry and finds what following `extends` means |
| `Environments.Registry.ResolveManifest` | crates/codex-start-core/src/environment.rs:596-619 | the recursion terminates on every registry and returns the left fold of the merge along the same chain, or the same error as the loop |
| `Environments.ChainMeaning` | crates/codex-start-core/src/environment.rs:645-705 | every field of the fold is that of the last manifest that sets it, image and build going together; settings are the fold of the layers, resources the merge by id |
| `Environments.Registry.Resolve` | crates/codex-start-core/src/environment.rs:540-571 | once the ancestry is found no cycle or unknown name can follow, and the environment says exactly what the chain says, or lacks an image |
| `Quoting.HexReadsBack` | crates/codex-start-core/src/config.rs:2589 | the escape of a control character reads back |
| `JsonReading.ValueAgain` | crates/codex-start-host/src/adapter_settings.rs:87-94 | the reader takes the same value from the same text before anything that does not continue a number |
| `JsonReading.ValueReadsBack` | crates/codex-start-host/src/adapter_settings.rs:45-47 | a written value reads back before anything that does not continue a number |
| `Jsonc.Uncomment` | crates/codex-start-host/src/adapter_settings.rs:96-132 | the first pass overwrites exactly the comments, or finds one unclosed |
| `Jsonc.TrimCommas` | crates/codex-start-host/src/adapter_settings.rs:134-153 | the second pass overwrites exactly the commas before a closing bracket |
| `Jsonc.Parse` | crates/codex-start-host/src/adapter_settings.rs:96-159 | the result is the cleaned text and the text with its trailing commas if the former is a JSON object |
| `Jsonc.SkipFrom` | crates/codex-start-host/src/adapter_settings.rs:76-85 | the cursor stops at the first byte that is no white space |
| `JsoncFacts.StringsStay` | crates/codex-start-host/src/adapter_settings.rs:96-153 | cleaning keeps the length and every byte of strings, and overwrites nothing but comments and trailing commas |
| `JsoncFacts.CleaningTwice` | crates/codex-start-host/src/adapter_settings.rs:96-159 | cleaning an accepted text again changes nothing |
| `JsoncFacts.LoneComma` | crates/codex-start-host/src/adapter_settings.rs:134-159 | `{,}` is accepted as an empty object |
| `JsoncFacts.DocumentQuiet` | crates/codex-start-host/src/adapter_settings.rs:154 | JSON holds neither comments nor trailing commas |
| `JsoncSplit.Respelled` | crates/codex-start-host/src/adapter_settings.rs:43-68 | a change between two safe offsets changes the uncommented text there and nowhere else |
| `JsoncSplit.Retrimmed` | crates/codex-start-host/src/adapter_settings.rs:136-153 | the same for the second pass, if the commas before see no difference |
| `JsoncWalk.ReadSetting` | crates/codex-start-host/src/adapter_settings.rs:8-12 | the setting read is the last one of its name in the object |
| `JsoncWalk.NextMember` | crates/codex-start-host/src/adapter_settings.rs:21-29 | one round of the walk finds a member's start, value, end and commas |
| `JsoncSetting.Find` | crates/codex-start-host/src/adapter_settings.rs:16-44 | the walk finds the only setting of the name, none, or that there are several |
| `JsoncUpdate.ReplaceEdit` | crates/codex-start-host/src/adapter_settings.rs:45-47 | respelling the value replaces it and keeps every other member |
| `JsoncUpdate.InsertEdit` | crates/codex-start-host/src/adapter_settings.rs:57-66 | insertion puts a member in front and keeps every other one |
| `JsoncSetting.RemoveAfter` | crates/codex-start-host/src/adapter_settings.rs:48-55 | removal with the comma behind keeps every other member, also if it was a trailing one |
| `JsoncSetting.RemoveBefore` | crates/codex-start-host/src/adapter_settings.rs:48-55 | removal with the comma before, or of the only member, keeps every other member |
| `JsoncSetting.Update` | crates/codex-start-host/src/adapter_settings.rs:14-70 | an update succeeds exactly on a valid text with at most one setting of the name; it respells one value, inserts one member at the front, or removes one member with blanks and commas on one side |
| `JsoncSetting.UpdateReadsBack` | crates/codex-start-host/src/adapter_settings.rs:14-70 | afterwards the setting reads back as given, or not at all after removal, and every other setting as before |
| `ShellWords.TmuxCommand` | crates/codex-start-host/src/app.rs:4259-4285 | the loops print `exec` and the quoted arguments, and refuse exactly arguments with NUL |
| `ShellWords.ShellReadsBack` | crates/codex-start-host/src/app.rs:4268-4279 | a POSIX shell reads exactly `exec` and the given arguments, empty ones included |
| `ShellWords.ParseArgv` | crates/codex-start-host/src/editor.rs:106-148 | the loop is the splitter's automaton |
| `ShellWords.SplitterReadsBack` | crates/codex-start-host/src/editor.rs:106-148 | the splitter reads the printed line back exactly if no argument is empty, and else loses just the empty ones |
| `ContentHash.HashField` | crates/codex-start-host/src/content_hash.rs:125-130 | label and value are fed with their lengths in front |
| `ContentHash.HashEntry` | crates/codex-start-host/src/content_hash.rs:35-67 | path, mode, type and contents or target of an entry are fed |
| `ContentHash.HashTree` | crates/codex-start-host/src/content_hash.rs:12-33 | the entries are fed in order of their paths |
| `ContentHash.SortedKeeps` | crates/codex-start-host/src/content_hash.rs:27 | sorting puts the same entries in order |
| `ContentHash.StreamDecodes` | crates/codex-start-host/src/content_hash.rs:12-66 | two different lists of entries never produce the same bytes |
| `ContentHash.SameBytesSameTree` | crates/codex-start-host/src/content_hash.rs:12-66 | two walks feed the same bytes exactly if they visited the same entries, in any order |
| `ContentHash.LexicallyEscapes` | crates/codex-start-host/src/content_hash.rs:103-123 | a link is refused exactly if following it name by name leaves the root on the way |
| `CivilDate.FormulaIsCalendar` | xtask/src/main.rs:1280-1301 | the formula equals counting day by day from 1 January 1970 in the Gregorian calendar |
| `CivilDate.NextDayIsTomorrow` | xtask/src/main.rs:1280-1301 | for every day count, negative ones included, the date exists and the next count gives the next date |
| `CivilDate.FourCenturies` | xtask/src/main.rs:1280-1301 | 146097 days add exactly 400 years |
| `CivilDate.EpochParts` | xtask/src/main.rs:1257-1278 | every epoch second splits into a date and a valid time that recombine to it, and the year of a 32-bit epoch fits its type |
| `Download.DownloadFile` | crates/codex-start-client/src/files.rs:82-148 | the download succeeds exactly if some number of acceptable chunks completes the announced size and digest; the file is then their concatenation; the requests are a start alone, a start and a close if no chunk is wanted, or start, orderly chunks and close |
| `Download.Chunks` | crates/codex-start-client/src/files.rs:108-141 | the loop makes at most `size` chunk requests, each at the length of what came before |
| `Download.Prefixes` | crates/codex-start-client/src/files.rs:110-136 | at most one number of chunks completes a file |

## Left out

- Broker.Broker.Output: writing to standard output never fails; in the program a failure ends the run.
- Broker.Broker.Send: a failed write leaves nothing behind, so partly written lines are not modelled.
- Broker.Broker.Closed: the order in which pending requests are failed is arbitrary, as the hash map's is.
- Broker.Broker.Maintain: idle times and file system notices are arbitrary; the probing of containers for other processes is part of that choice.
- Broker.Broker.ServerReply: messages carry only the fields the broker reads; `rewrite_host_response` and the filtering of a resume request's keys change bodies that the model keeps whole.
- Broker.Broker.Dispatch: the rewriting of the directory to its canonical form and the copying of attachments are reduced to whether they succeed.
- Broker.Broker.HostStateBackend: which home a directory uses is arbitrary; the fact that the native server is the first one makes the program's other test on it idle.
- The fields of the broker and of its servers are values in one record rather than separate heap fields, so aliasing between servers is not modelled; there is none in the program.
- A parameter that is not of the type the broker expects counts as absent.
- Records.Provenance.MergeValue: the record need not be exact for keys with dots or empty keys; `RecordLimits.ExactWhenTold` says when it is.
- Resolver.ConfigResolver.Resolve: validation of layers, homes and secrets, and the conversion into the effective configuration.
- Overrides.InsertAll: splitting variable names into segments and parsing values as TOML.
- CodexKeys.Flattener.FlattenCodexTable: the text of a scalar is kept as it is rendered, a string as the literal it is written as; numbers, dates and lists are not read back.
- Environments.Registry.Resolve: the validators, project detection, and the typed form of settings, whose reading back is a parameter; with it empty sub-tables stay.
- JsonText.ReadValue: the depth limit of the JSON parser and its limits on numbers; numbers are kept as spelled.
- Jsonc.Parse: the text is taken to be valid UTF-8, as the program's type demands.
- ShellWords.ShellReadsBack: the shell reader refuses everything but literal words, so expansions are not modelled; there are none in the printed line.
- ContentHash.HashTree: reading the tree, its symlink checks against the file system, and the digest itself.
- Download.DownloadFile: the network and the file system are arbitrary functions; the digest is an arbitrary function of the bytes.
- CivilDate.EpochParts: the narrower range of years that ZIP archives allow.
- Process handling, containers, Git, keychains, release tooling, the terminal interface and the mobile client.
