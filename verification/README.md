# Central-api: a verified model

Central-api is an in-memory broker. Clients ask over HTTP for files, metadata or the status of an
agent; agents answer over websockets; three shared registries (`unauthenticated_servers`, `servers`,
`requests`) pass channel senders between concurrent tasks. This project models that broker in Dafny and
proves what holds in every interleaving: who owns which sender, which bytes a client therefore gets, who
may be asked, and what is left behind.

| file | models |
|---|---|
| `Common.dfy` | shared types |
| `TimedMaps.dfy` | `TimedHashMap`: the insertion-ordered, timestamped map |
| `Watcher.dfy` | the expiry sweep and how long an unauthenticated entry can live |
| `Collector.dfy` | `wait_for_bytes`, `collect_bytes`, `construct_stream`, `__upload` as imperative code |
| `Decimals.dfy` | decimal ids: printing and `parse::<u64>` |
| `Json.dfy`, `JsonReading.dfy`, `JsonWriting.dfy` | the reader of JSON texts; how it behaves on parts of a text; a writer it is checked against |
| `Codec.dfy` | upload urls, the hand-written metadata JSON, the registration response |
| `Handlers.dfy` | the websocket handler's fields and callbacks, and its shutdown token |
| `Agents.dfy`, `AgentSafety.dfy` | agents, authentication futures and watcher as a transition system; its invariants |
| `Requests.dfy`, `RequestSafety.dfy` | client tasks, responders and request channels as a transition system; its invariants |
| `Broker.dfy` | both side by side, joined by `servers`, its read guards and the agents' queues |
| `Delivery.dfy` | what a client gets, in every state that satisfies the invariant |
| `Runs.dfy` | whole runs: what stays true for ever |
| `Lifecycle.dfy` | over whole runs: who passes validation, and who is taken off the list |
| `Outcomes.dfy` | what becomes of a request when its channel is read |
| `Service.dfy` | how every run can go on so that a client is answered |
| `Logins.dfy` | how every run can go on so that an agent logs in, is refused, expires or leaves |
| `Queues.dfy` | bounds of all queues over whole runs |
| `Deadlocks.dfy` | how a client that gives up and an upload wait for each other for ever |
| `Separation.dfy` | when an id can be waiting and logged in at once |
| `Claims.dfy` | whose sender an authentication takes |
| `Panics.dfy` | a run that ends the watcher |
| `Database.dfy` | the hashed table of credentials, and the stand-in used in the repository's tests |
| `Registration.dfy` | `__register`, alone and with many registrations interleaved |

`dafny verify dfyconfig.toml` checks everything.

**Steps.** A step of the transition systems is a stretch of code between two awaits. A step that waits
for a lock or for room in a channel is enabled only when it would get it: 100 items per channel, one
writer or many readers of `servers`, one writer of `requests` that keeps its guard while an upload or a
reply sends. A future, a responder or a client's handler may be dropped at any await. Statements of the
database run on threads of their own, so there a step is one statement: a save asks what is there and then
upserts, without a transaction, and goes on when its handler is dropped. The function
`Apply` of `Broker` is the program; `Inv` is what all of its runs keep (`Runs.InvHolds`), so everything
stated in `Delivery` from `Inv` holds in every reachable state.

**Histories.** The multisets of `Agents.History`, the delivered items of a channel and the set of used
request ids are books that no step reads, except that a new request id must be one not drawn before.

**Where the code falls short.** Where a property one would expect is false of the code, the model keeps the
code's behaviour and the exact condition is proved:

- `collect_bytes` does not hold the first item against its limit, so one chunk over two million bytes is
  accepted by the status request (`Collector.BodyIff`).
- A file name with a quote, backslash or control character does not survive the metadata reply, and neither
  does any file name beside a user name that breaks the JSON text; a quote as either name makes the download
  handler panic (`Codec.MetadataSurvivesIff`, `Codec.QuotedFileNamePanics`, `Codec.QuotedUserNamePanics`). An
  exception is a user name that opens an object and leaves it open: it may give a file name itself, and the
  real one ends up in that object (`Codec.SwallowedNameSurvives`).
- An id can be waiting and logged in at once, since admission and publication each use two locks
  (`Separation`).
- An authentication is not tied to its own websocket: the answer's id is not compared with it, and a newer
  websocket at the same address is published in its place without having answered (`Claims`).
- Two registrations that draw the same id before either saves can both be issued it
  (`Registration.OneIdIssuedTwice`), or else lock out the first one's agent: the key that is put back is
  hashed again (`Registration.TwinsLockOut`).
- A client that gives up waiting needs the registry `requests` to withdraw its request; an upload that has just
  begun holds that registry while it sends. With more than a hundred items the two wait for each other for ever,
  and everybody who wants to make, answer or withdraw a request waits with them (`Deadlocks.GetsStuck`,
  `Deadlocks.StuckForEver`).
- An agent whose websocket breaks stays in `servers` until its handler's removal runs; asking it meanwhile ends in
  a panic and leaves a request registered (`Service.AsksTheDead`).
- An authentication that is dropped between claim and publication strands its agent: it is on neither list and is
  never told (`Logins.IsStranded`).
- The watcher panics at an expired entry whose websocket is gone (`Watcher.Sweep`, `Panics.WatcherPanics`).
- An entry expires only a full second after the timeout (`Watcher.ExpiredIff`).
- `openapi.oas.yml` promises 204 for a successful upload; the code answers 200, and so does the model.

## Model

| member | source | states |
|---|---|---|
| `Runs.InvHolds` | src/endpoints/websockets.rs:80-464 | the invariant of the whole broker (filed and balanced senders, counted publications, shutdown tokens, sound request channels, guarded look-ups) holds in every state of every run, whatever interleaves |
| `Runs.OwnedOnce` | src/endpoints/websockets.rs:277-284 | in every reachable state a connection's sender is in at most one of `unauthenticated_servers`, an authentication future in flight and `servers`, and always under the id its websocket was opened with |
| `Runs.GoneForGood` | src/endpoints/websockets.rs:277-284 | a registered sender that is in none of its three places never returns to any of them in any later state |
| `Runs.ExpiryExcludesPublication` | src/util.rs:20-27 | a connection that the watcher expires at any time of a run is never claimed, published or overwritten at any time of that run, before or after |
| `Runs.PublicationsArePreceded` | src/endpoints/websockets.rs:275-284 | whenever a further publication under an id happens, at least that many validations of this id had succeeded before it; each with the stored passcode (`Lifecycle.CountedValidationMatched`) |
| `Runs.StoppedForGood` | src/endpoints/websockets.rs:91-148 | a stopped handler stays stopped, its own removal from `servers` (`Lifecycle.RemovalRemoves`) has run exactly once, and nothing is taken off its queue any more |
| `Runs.NeverStaleAgain` | src/endpoints/util.rs:38-88 | a request that a collection or stream has dealt with is unregistered then and in every later state, whatever races with its timeout |
| `Runs.SameResponderForEver` | src/endpoints/upload.rs:21-36 | once a sender has been taken, all that ever comes out of its channel is a growing initial part of what that one responder sends: two uploads or replies never mix |
| `Runs.SecondPhaseFollowsMetadata` | src/endpoints/download.rs:136-158 | a download in its second phase had, in an earlier state of the run, collected what one responder sent to its first request; and its name and size are what is read in that |
| `Runs.LaterInRun` | src/endpoints/websockets.rs:91-148 | from any state of a run to any later one: histories grow, handlers only move on, taken senders stay taken, finished tasks and responders do not change, used unregistered ids stay unregistered |
| `Lifecycle.ValidationDecides` | src/endpoints/websockets.rs:275-309 | an answer is accepted if and only if its id is registered with exactly its passcode, refused otherwise, and dropped if the database fails; nothing is registered or told yet |
| `Lifecycle.PassedMeansMatched` | src/endpoints/websockets.rs:275-284 | whenever a future has got past validation, in any state of any run, an earlier step took it there from a state in which the passcode it gave was the one stored for its id |
| `Lifecycle.WrongPasscodeNeverPasses` | src/endpoints/websockets.rs:293-305 | a future whose answer matches at no instant never claims, publishes or is told that it is accepted |
| `Lifecycle.LoggedInMeansMatched` | src/endpoints/websockets.rs:275-284 | whoever is in `servers` under an id, in any state of any run, was put there by a future that carried its sender and had, still earlier, given the passcode stored for this very id |
| `Lifecycle.CountedValidationMatched` | src/endpoints/websockets.rs:275-284 | the count of successful validations of an id grows only by a future that gives the passcode stored for it |
| `Lifecycle.RepliesTell` | src/endpoints/websockets.rs:283-305 | an accepted agent is sent the Ok and then authenticated; a refused one is sent the failure and then CloseConnection; each by its own future, behind what is queued already |
| `Lifecycle.AsksWhileRunning` | src/endpoints/websockets.rs:204-206 | an authentication begins only with a live websocket whose handler is running |
| `Lifecycle.RemovalRemoves` | src/endpoints/websockets.rs:99-103 | a step that counts a handler's removal takes exactly the id its websocket was opened with off `servers`, and the handler is stopping |
| `Lifecycle.BackMeansPublished` | src/endpoints/websockets.rs:275-284 | an id that is not logged in at one instant but is at a later one was published in between |
| `Lifecycle.RemovedUntilPublished` | src/endpoints/websockets.rs:99-107 | after a handler's removal, its id is logged in at a later instant only if it was published anew since |
| `Lifecycle.AsksToStop` | src/endpoints/websockets.rs:91-116 | in every reachable state: a running handler that is asked to stop begins to, with its removal pending; one that is stopping stays as it is; and a connection goes exactly when its handler has stopped, after its one removal |
| `Outcomes.ReceiveLeads` | src/endpoints/util.rs:11-88 | where every single reading leads, in terms of the items delivered: an empty close to 404, a broken first item to 408, a first chunk to collecting or streaming, an offending item to 413 or 500 with the closed form's verdict (two million bytes for a status), and the end to the closed form's body, to the reading of the metadata, or to the end of the stream |
| `Outcomes.ReadsTheAnswer` | src/endpoints/util.rs:63-88 | once the sender is gone, a task that reads on is given the answer for everything sent, come already or still queued: the closed form if something is collected, the end of the stream otherwise |
| `Service.ClientIsAnswered` | src/endpoints/info.rs:49-117 | every run in which an agent is reachable and the registry free can go on, for every payload a responder may bring, so that the client ends with the closed-form answer for exactly this payload, its agent having been asked, and told 404, 408 or 413; and the registry is as before |
| `Service.ReplyIsAnswered` | src/endpoints/websockets.rs:209-262 | every status reply becomes the body of the answer, whatever its size; every metadata reply is streamed as formatted, and an upload in its place as it comes; a missing file is answered 404 |
| `Service.DownloadIsDelivered` | src/endpoints/download.rs:93-198 | every such run can go on so that a download gets its whole file: for every metadata reply that survives and every payload with a first chunk, the client is streamed exactly this payload, with that name and size, and the agent is asked for metadata and upload, in this order, under two ids |
| `Service.Arrives` | src/endpoints/download.rs:36-49 | a client that arrives goes on exactly if the agent it asks for is logged in, and changes nothing but its own task |
| `Service.FindsNothing` | src/endpoints/upload.rs:22-28 | whoever comes for an id that is not registered is turned away: it sends nothing, and nothing else changes |
| `Service.TimesOut` | src/endpoints/util.rs:15-58 | every task that waits can be answered 408, with its request withdrawn and the agent told so |
| `Service.ClientLeaves` | src/endpoints/upload.rs:31-36 | a client may go away while it is being served: the next send of its responder fails, and frees the registry |
| `Service.AsksTheDead` | src/endpoints/download.rs:65-72 | asking an agent whose websocket is gone ends in a panic, or in an answer without one in the second phase of a download, and leaves the request registered |
| `Service.RejectsTheDead` | src/endpoints/util.rs:69-76 | telling it that its file is too large ends in a panic |
| `Service.NotifiesTheDead` | src/endpoints/util.rs:46-58 | telling it that it was late does not: the client gets its code |
| `Deadlocks.GetsStuck` | src/endpoints/upload.rs:22-36 | from every run in which an agent is reachable and the registry free, for every payload of more than a hundred items: a run goes on to a state in which the task, its time being up, wants the registry that the upload holds while its channel is full |
| `Deadlocks.StuckForEver` | src/endpoints/util.rs:38-44 | in such a state they stay in every later state of every run, and no request is registered, claimed or withdrawn by anybody, unless this upload is broken off or this client goes away |
| `Logins.LogsIn` | src/endpoints/websockets.rs:266-293 | every run in which nobody is logged in under a registered id can go on so that an agent with its passcode is published, authenticated and sent all three messages, and nobody else is affected |
| `Logins.ServedFromNothing` | src/endpoints/download.rs:93-198 | from the start, for every registered id, every metadata reply that survives and every payload with a first chunk: there is a run in which the agent logs in and a client is streamed exactly this payload, with nothing left in `requests` |
| `Logins.IsRefused` | src/endpoints/websockets.rs:295-309 | every such run can go on so that an agent with a wrong passcode is sent the failure and CloseConnection, and nobody is published |
| `Logins.OldPasscodeIsRefused` | src/endpoints/websockets.rs:275-305 | once an id has a new passcode, the old one is refused so |
| `Logins.IsExpired` | src/util.rs:16-28 | every such run can go on so that a silent agent is expired: sent CloseConnection and on neither list, with the watcher back at rest |
| `Logins.GoesOff` | src/endpoints/websockets.rs:91-116 | every run with a running handler can go on to its end: the removal, the report through the queue, and the stop; the agent is off the list and nobody else is affected |
| `Logins.NeverStarts` | src/endpoints/websockets.rs:443-464 | a websocket whose upgrade fails stays listed as waiting |
| `Logins.IsStranded` | src/endpoints/websockets.rs:276-284 | a future dropped after its claim leaves its agent on neither list, alive and untold |
| `Logins.Breaks` | src/endpoints/websockets.rs:80-116 | a connection may break in every phase, and its sender stays where it is |
| `Logins.Pings` | src/endpoints/websockets.rs:170-177 | as long as the handler has not stopped it can go on pinging, and its number counts the pings modulo 2^64 |
| `Queues.InBoundsInRun` | src/endpoints/websockets.rs:430 | in every state of every run no queue of a websocket or of a request has more than a hundred items, and a request that is over is not listened to |
| `Delivery.OneResponder` | src/endpoints/upload.rs:21-36 | everything a task has received is an initial part of what exactly one responder, aiming at that very request, has sent, in order |
| `Delivery.WholeAnswer` | src/endpoints/util.rs:63-88 | after the channel has closed, what was received is all that the responder sent; and its whole payload unless the responder was cancelled |
| `Delivery.CollectedBody` | src/endpoints/util.rs:63-88 | a collected body is the concatenation of what one responder sent, and the closed form of its whole payload unless it was cancelled; that there is one whenever there should be is `Outcomes.ReadsTheAnswer` |
| `Delivery.CollectedComplaint` | src/endpoints/util.rs:64-87 | an answer 413 or 500 is the closed form's verdict on one responder's whole payload, however much of it was received |
| `Delivery.NotFoundMeansEmptyAnswer` | src/endpoints/util.rs:15-17 | an answer 404 after waiting means that one responder took the request and ended having sent nothing |
| `Delivery.AskNamesItsRequest` | src/endpoints/download.rs:166-183 | the message put into the agent's queue asks for the task's own file under the task's own request id; an upload url is the configured base url, the upload route and exactly that id |
| `Delivery.TakerServesTheTask` | src/endpoints/upload.rs:22-29 | whoever takes a request under the id of a task gets that task's own sender, and no other request leaves the registry |
| `Delivery.MetadataReachesDownload` | src/endpoints/download.rs:136-155 | a metadata reply arrives in the download handler byte for byte, and the second phase has the same name and size if and only if they survive; which is decided by the two names, with the exception of `Codec.MetadataSurvivesIff` |
| `Delivery.NoStaleRequest` | src/endpoints/util.rs:38-129 | every exit of `collect_bytes` and every return of `construct_stream`, from the withdrawal on, finds the request id unregistered |
| `Delivery.LookUpSucceeds` | src/endpoints/download.rs:37-64 | the second look-up of the agent never fails, because no writer of `servers` can run while the first read guard lives |
| `Delivery.GuardEnds` | src/endpoints/download.rs:36-198 | a task holds its read guard from the check until its handler returns, through the whole metadata round trip, and not while the body streams; and while it does, nobody is published or taken off the list |
| `Delivery.RegistryIsHeld` | src/endpoints/upload.rs:22-38 | while a responder holds the registry of requests, no step of anybody changes it |
| `Delivery.WaitingListIsHeld` | src/util.rs:16-28 | while the watcher is under way, only it takes anybody off the list of those who wait, and nobody is put on it |
| `Delivery.AskedChannelIsPublished` | src/endpoints/download.rs:63-69 | a task only ever talks to a channel opened at its agent's own address, published once after a validation of that id (`Lifecycle.LoggedInMeansMatched`), and never expired; whose answer was validated is the matter of `Claims` |
| `Broker.InvInit` | src/endpoints/websockets.rs:418-464 | the initial state satisfies the invariant |
| `Broker.InvStep` | src/endpoints/websockets.rs:80-464 | every step of agents, watcher, responders and client tasks keeps the invariant |
| `Broker.GuardedStep` | src/endpoints/download.rs:102-169 | while a task holds its read guard, over the whole metadata round trip, its agent stays logged in with the sender that was looked up |
| `Broker.ServersLeft` | src/endpoints/websockets.rs:99-107 | only the removal of a stopping handler and a publication change `servers` |
| `AgentSafety.FiledStep` | src/endpoints/websockets.rs:437-447 | every step keeps each registered, carried or expiring sender filed under the id its websocket was opened with |
| `AgentSafety.BalancedStep` | src/endpoints/websockets.rs:277-284 | every step keeps the ledger of every sender balanced: what entered a place is still there or left it by exactly one of the ways out |
| `AgentSafety.LinearOwnership` | src/endpoints/websockets.rs:277-284 | a balanced ledger leaves a sender in at most one place, lets at most one final event befall it, and makes it gone if and only if one has |
| `AgentSafety.AuthorisedStep` | src/endpoints/websockets.rs:275-284 | every step keeps: publications under an id, made and still possible, never outnumber its successful validations (`Lifecycle.CountedValidationMatched`), and every key of `servers` was published |
| `AgentSafety.HandlerKeptStep` | src/endpoints/websockets.rs:91-148 | every step keeps each handler's shutdown token in exactly one place, and its removal counted; what a counted removal does is `Lifecycle.RemovalRemoves` |
| `AgentSafety.StoppedMeansRemoved` | src/endpoints/websockets.rs:102-107 | a stopped handler has had its removal (`Lifecycle.RemovalRemoves`), once, and no second token is on its queue |
| `AgentSafety.SafeInit` | src/endpoints/websockets.rs:418-464 | nothing has happened yet, and the books balance |
| `AgentSafety.SafeStep` | src/endpoints/websockets.rs:80-464 | every step of every agent, future and of the watcher keeps all of these |
| `RequestSafety.SoundInit` | src/endpoints/download.rs:119-122 | no request, no channel: the requests' invariant holds |
| `RequestSafety.SoundOpen` | src/endpoints/download.rs:119-122 | opening a request under a new id registers its channel's only sender, empty and listening |
| `RequestSafety.SoundTake` | src/endpoints/upload.rs:22-29 | taking a sender out of the registry makes its taker the channel's only source |
| `RequestSafety.SoundSend` | src/endpoints/upload.rs:31-36 | what is sent next continues what has been delivered and queued |
| `RequestSafety.SoundFinish` | src/endpoints/upload.rs:38 | a responder that completes has sent its whole payload |
| `RequestSafety.SoundCancel` | src/endpoints/upload.rs:31-38 | dropping a responder closes the channel and loses nothing that was sent |
| `RequestSafety.SoundCheck` | src/endpoints/download.rs:37-49 | the check whether the agent is online keeps the requests' invariant and changes nothing but the place of its task |
| `RequestSafety.SoundRoute` | src/endpoints/download.rs:63-64 | the second look-up keeps the invariant and changes nothing but the place of its task; were it to panic, only the receiver would be closed besides |
| `RequestSafety.SoundAsk` | src/endpoints/download.rs:168-183 | asking the agent keeps the invariant and changes nothing but the place of its task; a failure closes its receiver besides |
| `RequestSafety.SoundTimeout` | src/endpoints/util.rs:15-22 | a timeout happens only while no item has been received, keeps the invariant, and changes nothing but the place of its task |
| `RequestSafety.SoundReceive` | src/endpoints/util.rs:63-88 | receiving an item or the end keeps every task where the closed form over its items allows it; where it leads is `Outcomes.ReceiveLeads` |
| `RequestSafety.SoundWithdraw` | src/endpoints/util.rs:40-44 | withdrawing leaves the id unregistered, whoever took the sender in the meantime |
| `RequestSafety.SoundReject` | src/endpoints/util.rs:69-78 | the answer 413 is given on the verdict of the closed form |
| `RequestSafety.SoundParse` | src/endpoints/download.rs:151-158 | reading the metadata, whatever it is, keeps the invariant; the first request is no longer registered, and the task is ready for a second one or the handler panics and drops its receiver |
| `RequestSafety.DeliveredMeansTaken` | src/endpoints/util.rs:38-44 | if an item was sent or the channel is closed, the sender has left the registry |
| `Separation.AdmitKeepsDisjointIff` | src/endpoints/websockets.rs:437-447 | an admission keeps the two registries apart if and only if no agent is logged in under the id at the insertion |
| `Separation.PublishKeepsDisjointIff` | src/endpoints/websockets.rs:277-284 | a publication keeps them apart if and only if nobody has been admitted under the id since the claim |
| `Separation.WhoIsBetween` | src/endpoints/websockets.rs:277-284 | from rest, the only pairs of steps that register anything are check and admission of one connection, claim and publication of one future |
| `Separation.AtomicRunsStayDisjoint` | src/endpoints/websockets.rs:437-447 | with both pairs uninterrupted, no id is ever both waiting and logged in, in any state of any such run |
| `Separation.AtomicPublicationsOverwriteNobody` | src/endpoints/websockets.rs:277-284 | and whenever a publication happens in such a run, nobody is logged in under its id: authentication never overwrites a logged-in agent |
| `Separation.RaceBreaksSeparation` | src/endpoints/websockets.rs:437-447 | without that, for every registered id there is a run that ends with the id in both registries |
| `Claims.ClaimsItsOwnIff` | src/endpoints/websockets.rs:275-284 | an authentication takes its own websocket's sender if and only if it names the id this websocket was opened with, and the sender has been neither overwritten, expired nor claimed |
| `Claims.OwnSenderInRun` | src/endpoints/websockets.rs:275-284 | the same in every state of every run of the broker |
| `Claims.SilentAgentPublished` | src/endpoints/websockets.rs:266-294 | for every registered id there is a run that publishes a websocket which never said anything, while another is told that it is authenticated |
| `Handlers.WsHandler.constructor` | src/endpoints/websockets.rs:430-460 | a new handler runs, unauthenticated, with the request for authentication queued, and has no token |
| `Handlers.WsHandler.Stopping` | src/endpoints/websockets.rs:91-116 | the first request to stop spawns the one removal; only a stopped handler, whose removal has reported, may go |
| `Handlers.WsHandler.InternalComms` | src/endpoints/websockets.rs:123-168 | takes at most one item, none once stopped, acts on it by its kind, and stops only on the reported token |
| `Handlers.WsHandler.PingPong` | src/endpoints/websockets.rs:170-178 | sends the current number and counts on, unless stopped |
| `Handlers.StoppingKeepsToken` | src/endpoints/websockets.rs:93-115 | leaving Running creates the one token; states only move on |
| `Handlers.ReportKeepsToken` | src/endpoints/websockets.rs:104-106 | reporting moves the token into the queue |
| `Handlers.ReceiveKeepsToken` | src/endpoints/websockets.rs:285-290 | no other message is a token |
| `Handlers.DrainKeepsToken` | src/endpoints/websockets.rs:136-148 | draining consumes the token exactly when it stops the handler; a stopped handler is left as it is |
| `Watcher.ExpiredIff` | src/util.rs:22 | whole seconds compared with `>`: an entry expires exactly one second after the timeout |
| `Watcher.FilterCutsPrefix` | src/util.rs:20-24 | in stamp order, filtering the whole map only ever cuts off a prefix |
| `Watcher.Sweep` | src/util.rs:17-28 | one pass leaves exactly what a filter of the whole map at the last clock reading leaves, in order, and tells exactly the others, although the clock moves on between tests; it panics only at an expired entry whose receiver is gone |
| `Watcher.ExecIsWellTimed` | src/util.rs:14-28 | over every sequence of clock advances, admissions, claims and sweeps the map stays distinct, in stamp order, and free of what was expired at the last sweep |
| `Watcher.LifetimeBound` | src/util.rs:14-28 | with the last sweep at most g ago no entry is as old as timeout + 1 s + g, and a sweep, though it reads the clock again for every entry, takes an entry if and only if it is at least timeout + 1 s old by its last reading |
| `Watcher.PassedIsCut` | src/util.rs:20-24 | whatever time goes by between the readings of a sweep, it leaves what its last reading alone would leave |
| `Panics.WatcherPanics` | src/util.rs:25-27 | for every id there is a run in which a waiting websocket goes away, the watcher panics on it, and nothing is ever swept again |
| `TimedMaps.TimedHashMap.constructor` | src/timelocked_hashmap.rs:18-22 | starts empty |
| `TimedMaps.TimedHashMap.ContainsKey` | src/timelocked_hashmap.rs:25-27 | true exactly for the keys of the plain map it stands for |
| `TimedMaps.TimedHashMap.Insert` | src/timelocked_hashmap.rs:30-32 | updates the plain map, and puts the entry last with a fresh stamp |
| `TimedMaps.TimedHashMap.Remove` | src/timelocked_hashmap.rs:35-37 | removes the key from the plain map and returns what it held |
| `TimedMaps.TimedHashMap.Keys` | src/timelocked_hashmap.rs:40-42 | every key once, in insertion order |
| `TimedMaps.TimedHashMap.FrontWithTime` | src/timelocked_hashmap.rs:50-52 | the front entry, which is the oldest |
| `TimedMaps.TimedHashMap.PopFront` | src/timelocked_hashmap.rs:55-57 | removes exactly the front entry |
| `TimedMaps.WithoutKeepsOrder` | src/timelocked_hashmap.rs:35-37 | a removal keeps the others in their order |
| `TimedMaps.InsertedUpdates` | src/timelocked_hashmap.rs:30-32 | an insertion, of a new or an old key, is an update of the plain map |
| `TimedMaps.RunKeepsInsertionOrder` | src/timelocked_hashmap.rs:30-57 | after every sequence of operations the entries are the last insertions of their keys, in the order of those, stamps sorted, keys distinct |
| `TimedMaps.RunRefinesMap` | src/timelocked_hashmap.rs:25-57 | after every sequence of operations the entries stand for the plain map that the same operations give |
| `Collector.WaitForBytes` | src/endpoints/util.rs:11-23 | the first chunk; 404 if the channel closed without one; 408 on a timeout or a broken first item |
| `Collector.CollectBytes` | src/endpoints/util.rs:25-89 | after an accepted first item the answer is the closed form over all items, nothing is read behind the first offending one, and the buffer never has more than the limit, or the first chunk, plus one chunk; otherwise the request is withdrawn and the agent told |
| `Collector.ConstructStream` | src/endpoints/util.rs:91-130 | after an accepted first item every item is passed on unchanged and in order; otherwise the request is withdrawn and the agent told |
| `Collector.Upload` | src/endpoints/upload.rs:17-39 | claims that request and no other, sends the payload in order, and answers 404, 500 or 200 accordingly |
| `Collector.BodyIff` | src/endpoints/util.rs:63-88 | there is a body if and only if all items are chunks and there is one item, no limit, or a total within the limit; and it is the concatenation of all |
| `Collector.VerdictIsUnique` | src/endpoints/util.rs:63-88 | the closed form determines the answer |
| `Collector.FirstOffenceExists` | src/endpoints/util.rs:64-87 | whenever there is no body there is a first offending item, which decides between 413 and 500 |
| `Collector.ComplaintIsFinal` | src/endpoints/util.rs:64-87 | no continuation of the stream changes a 413 or 500 |
| `Collector.TakeOne` | src/endpoints/util.rs:64-87 | one turn of the loop extends the closed form by one item |
| `Decimals.ParseOfPrint` | src/endpoints/websockets.rs:216-221 | parsing a printed number gives it back, exactly within the range of u64 |
| `Decimals.ParseIff` | src/endpoints/websockets.rs:216-221 | exactly these texts are parsed as a given number: its digits behind any zeros, behind a plus sign or none |
| `Codec.UploadUrlRoundTrip` | src/endpoints/download.rs:167 | every printed url is its base url, then the upload route, then digits that are the last path segment and parse back to the id |
| `Codec.UploadClaimsItsOwnRequest` | src/endpoints/upload.rs:22-29 | an upload to the printed url finds and removes the request it was printed for, and no other |
| `JsonReading.TextSurvivesIff` | src/endpoints/websockets.rs:242-252 | a raw string between quotes is read back unchanged if and only if it has no quote, backslash or control character and is valid UTF-8, as every text of the program is |
| `Codec.MetadataRoundTrip` | src/endpoints/websockets.rs:242-252 | a hand-formatted metadata body is read back as the same file name and size, for all u64 sizes and readable names (RFC 8259, sections 6 and 7) |
| `Codec.MetadataFields` | src/endpoints/websockets.rs:242-252 | whoever reads a metadata reply with readable names finds six members in it: file id, expiry, creation time and size as the four numbers they were, and the two names |
| `Codec.MetadataSurvivesIff` | src/endpoints/download.rs:153-155 | name and size survive if and only if the file name is readable and the user name is allowed; the one exception is an unreadable file name beside a user name that breaks the text and has an opening brace in it |
| `Codec.ReadableNameSurvivesIff` | src/endpoints/download.rs:153-155 | for readable file names and all user names, name and size survive if and only if the user name, between its quotes, is read as members of which none gives another file size or holds a number too large |
| `Codec.OnlyReadableNamesSurvive` | src/endpoints/download.rs:153-155 | beside a user name that is read as members between its quotes, or that has no opening brace in it, a file name that survives is readable |
| `Codec.SwallowedNameSurvives` | src/endpoints/download.rs:153-155 | an input in the exception for which an unreadable file name survives: the user name gives it itself, and opens an object in which the real line ends up |
| `Codec.ClosedUserNameIsAllowed` | src/endpoints/websockets.rs:242-252 | a user name that is one closed JSON string between its quotes, escapes of any kind or not, is allowed for every file size |
| `Codec.ReadableUserNameIsAllowed` | src/endpoints/websockets.rs:242-252 | so is a readable one |
| `JsonReading.SameMembers` | src/endpoints/websockets.rs:242-252 | no string and no array is read across the raw line break: up to it the members are read as if the object ended there, and an object that is open there ends with the whole text or not at all |
| `JsonReading.AlikeMembers` | src/endpoints/websockets.rs:242-252 | whatever follows the line break, members that are read up to it as if the object ended there are read alike in the whole text, and reading goes on after the comma |
| `JsonWriting.WrittenIsRead` | src/endpoints/download.rs:153 | every JSON value, written with the escapes and forms of RFC 8259, is read back as itself wherever it stands, if and only if its arrays and objects are not too deep; otherwise it is refused |
| `JsonWriting.ObjectIsReadBack` | src/endpoints/download.rs:153 | a text that is one object between blanks is read back, if and only if at most 127 arrays and objects lie within each other |
| `JsonWriting.Utf8Iff` | src/endpoints/download.rs:153 | the reader takes exactly the concatenated encodings of Unicode scalar values for UTF-8 (RFC 3629) |
| `JsonWriting.TextIsRead` | src/endpoints/download.rs:153 | every valid text, written with escapes (RFC 8259, section 7), is read back |
| `JsonWriting.UnicodeIsRead` | src/endpoints/download.rs:153 | every scalar value written in hexadecimal digits, from 0x10000 on as a surrogate pair, is read as its encoding |
| `JsonWriting.LoneSurrogate` | src/endpoints/download.rs:153 | half of a surrogate pair is refused |
| `JsonWriting.NumberIsRead` | src/endpoints/download.rs:153 | every number of the grammar (RFC 8259, section 6) is read to its end |
| `JsonWriting.OnlyNumbersAreRead` | src/endpoints/download.rs:153 | and nothing else is read as a number |
| `JsonReading.InRangeIff` | src/endpoints/download.rs:153 | a text is refused for its numbers if and only if one of them, however deep it stands, is refused; 64-bit integers and numbers of at most 300 characters without exponent never are |
| `Codec.QuotedFileNamePanics` | src/endpoints/download.rs:153-155 | a file name that is a quote makes the handler's unwrap fail, whatever the user name |
| `Codec.QuotedUserNamePanics` | src/endpoints/download.rs:153-155 | so does a user name that is a quote, whatever the file name |
| `Codec.CredentialRoundTrip` | src/endpoints/auth.rs:69-76 | the registration response is read as exactly the id and passcode issued, for every id and alphanumeric passcode |
| `Database.AsI64` | src/db.rs:122 | the cast keeps the value modulo 2^64 |
| `Database.CastIsBijection` | src/db.rs:122-125 | the cast is a bijection between u64 and i64 |
| `Database.WhereFindsTheRow` | src/db.rs:180-187 | with unique ids a query by id yields the one row there is, so `users[0]` is sound |
| `Database.UpsertedMeans` | src/db.rs:146-151 | an upsert keeps ids unique, sets one key, and keeps `last_seen` of a row that was there |
| `Database.TouchedMeans` | src/db.rs:223-234 | an update of `last_seen` changes one time, if the id is known, and no key |
| `Database.AgentTable.constructor` | src/db.rs:101-109 | a new table holds no credential |
| `Database.AgentTable.SaveEntry` | src/db.rs:111-159 | stores the hash under the id, returns the previous key, and keeps `last_seen` of an old row |
| `Database.AgentTable.ValidateServer` | src/db.rs:161-191 | true if and only if the id is known and its key is the hash of the passcode |
| `Database.AgentTable.ContainsEntry` | src/db.rs:193-213 | true if and only if the id is known |
| `Database.AgentTable.UpdateLastSeen` | src/db.rs:215-239 | sets the time of a known id and nothing else |
| `Database.MockDb.constructor` | src/db.rs:378-382 | starts empty |
| `Database.MockDb.SaveEntry` | src/db.rs:384-390 | updates the map and returns the previous passcode |
| `Database.MockDb.ValidateServer` | src/db.rs:392-401 | true if and only if the stored passcode is this one |
| `Database.MockDb.ContainsEntry` | src/db.rs:403-408 | true if and only if the id is stored |
| `Database.TableRefinesMock` | src/db.rs:111-239 | after every sequence of calls the table holds exactly the hashes of what the stand-in holds, one row per id |
| `Database.RepliesAgree` | src/db.rs:161-213 | after every sequence of calls both answer alike; only a validation of another passcode with the same hash can differ |
| `Database.IndistinguishableIff` | src/db.rs:182-188 | no run over a set of passcodes tells table and stand-in apart, if and only if the hash is injective on that set |
| `Registration.DrawId` | src/endpoints/auth.rs:18-45 | refuses exactly the wrong passwords, with 400 or 401; otherwise the first drawn id that is unused is chosen, unless the database fails before, which is answered 500 |
| `Registration.Issue` | src/endpoints/auth.rs:50-67 | issues if and only if the id is still unused; otherwise the old key is left hashed once more |
| `Registration.IssueOnMock` | src/endpoints/auth.rs:50-67 | on the stand-in the restoring save leaves the map as it was |
| `Registration.IssuedIdsAreDistinct` | src/endpoints/auth.rs:32-67 | no id is issued twice, if no two registrations were ever between check and save of that id |
| `Registration.IssuedForEver` | src/endpoints/auth.rs:69-76 | what was issued stays issued |
| `Registration.CredentialsStayValid` | src/endpoints/auth.rs:32-67 | an issued id and passcode validate in every later state, if no two registrations were ever between check and save of that id |
| `Registration.KeepsCredentialIff` | src/db.rs:136-152 | in every sound state and for every step: a good credential stays good if and only if the step is not a save or a putting back of its id with a key of another hash |
| `Registration.SavesAgainIff` | src/db.rs:136-155 | a save of an id that was issued before issues it again if and only if its question had found nothing and somebody listens |
| `Registration.TwinsHappen` | src/endpoints/auth.rs:32-55 | for every id there is a run that brings two registrations between check and save of it |
| `Registration.BothIssued` | src/db.rs:136-155 | two that ask before either saves are both issued the id, from every sound state, and the first credential is then good if and only if the passcodes collide |
| `Registration.OneIdIssuedTwice` | src/endpoints/auth.rs:32-76 | for every id there is a whole run that issues it twice |
| `Registration.UnheardLocksOut` | src/endpoints/auth.rs:50-55 | for every id there is a whole run in which a registration whose client has gone saves all the same: nobody is issued its passcode, and the agent that was issued the id is locked out unless the passcodes collide |
| `Registration.VisitIsSeen` | src/db.rs:215-239 | every run can go on with a visit, after which a known agent's time is this one and nothing else has changed |
| `Registration.TwinsLockOut` | src/endpoints/auth.rs:50-67 | if the second asks after the first has saved, its save leaves the first credential good if and only if the passcodes collide, and its putting back if and only if hashing the hash changes nothing |
| `Registration.SoundStep` | src/db.rs:136-152 | every step keeps one row per id, forgets no issued id, and takes back no issue |
| `Registration.CalmStep` | src/endpoints/auth.rs:32-67 | every step from a state without twins for an id keeps its credential good and issued once |

## Left out

- HTTP and websocket plumbing, the actix runtime, rate limiting, logging, configuration, the command line, and the wire format of `ws_com_framework`, which is not part of this model.
- Fairness: `Service` and `Logins` say that every run can go on to an answer, not that it must. Waiting for a second read guard behind a writer is such a matter.
- Randomness: ids and passcodes are inputs. That request ids are new is an assumption of `Requests.CanOpen`; nothing in the code checks it.
- Errors of the database in a save, of its connection pool and of its migrations (each answers 500), and the row number column. SHA-256 is an arbitrary function.
- In the transition systems the two registries of `TimedHashMap` are plain maps, and the watcher may pop any entry; which entries it pops, and when, is settled in `Watcher`. That the ordered map is a plain map is `TimedMaps.RunRefinesMap`.
- The transition systems are functions on states, with no objects: many tasks share one state, and the steps of all of them interleave. The single pieces of code are in imperative form in `TimedMaps`, `Watcher`, `Collector`, `Handlers`, `Database` and `Registration`.
- The transition systems allow more than the program does: a timeout at any moment before the first item, responders that answer any id at any time, futures that outlive their actor.
- A request entry left behind by a client that goes away, by a panic, or by the failed send of the second phase of a download: `Delivery.NoStaleRequest` speaks of `collect_bytes` and `construct_stream` only.
- The conversion of a collected status to UTF-8, the `Content-Disposition` header, and the check of the announced file size against the streamed body.
- The text of a status reply, which is an arbitrary byte string here.
- The comparison of pongs with the last ping, the update of `last_seen` at every tenth ping, and unexpected messages; each is a reason to call `stopping`, which may happen at any time here.
- `TimedHashMap::values`, the `DbBackend` wrappers for `Arc` and `Data`, and the message that exists for tests only.
- Watcher.Sweep: the answers of the clock are given as a list in order, and the senders still listened to as a fixed set; the wait for room in a queue is in `Agents.SendCompletes`.
- Collector.CollectBytes: the items that will come out of the receiver are fixed beforehand; how they get there is in `Requests`, where `RequestSafety.SoundReceive` proves the same closed form step by step.
- Collector.Upload: the moment at which the client goes away is an input, counted in accepted chunks.
- Handlers.WsHandler.PingPong: the counter wraps round, as in a release build; a debug build would panic after 2^64 pings.
- Codec.MetadataSurvivesIff: for an unreadable file name beside a user name that breaks the text and has an opening brace in it (`Codec.LeavesOpen`) no condition is stated; both outcomes occur (`Codec.SwallowedNameSurvives`, `Codec.QuotedFileNamePanics`).
- Numbers in JSON texts: which numbers with an exponent or of more than 300 characters are refused as infinite depends on the rounding of floats; it is an arbitrary function (`fits`), fixed per run. The reader has the strictness of `serde_json` with its default features, which is not part of this model.
- Registration.DrawId: partial correctness; the draws are a finite list, which may run out.
- Database.AgentTable.SaveEntry: the two statements of a save run with nothing in between here; `Registration.Apply` has them apart.
- Registration.Issue: both of its saves run with nothing in between here; `Registration.Apply` has all of their statements apart.
