# A verified model of the SOCKS5 proxy

The repository is a SOCKS5 proxy (RFC 1928, RFC 1929) built on one select loop, with a helper thread for every DNS
lookup and a small text protocol to manage users. This project models it in Dafny and proves what it is for: relayed
bytes are neither lost nor invented, nothing is used after it was freed, no session gets stuck, nobody is served without
admission, and what the counters say is what happened. Every such statement is about all runs.

`dafny verify dfyconfig.toml` checks the whole project.

## How it is built

* **The transition system** (`Proxy.dfy`). A world holds the selector's registrations, the open descriptors, a heap of
  sessions, the resolver jobs, their threads and address lists, the notification queue, the counters, and a history of
  every session that survives it. `Step` handles one event: a connection is accepted, a descriptor is ready, a
  notification is drained, a resolver thread takes one of its atomic steps. What system calls return, and the user table
  as management left it, come with the event, so a run is any sequence of events and a theorem about `Run(START, events)`
  is about any order of descriptors, any partial send, any failure, any interleaving and any change of users. Every
  dereference checks that its object is still allocated, every free and close that it still may, every notification that
  there is a handler for it; `fault` records a violation. The theorems say it never becomes true. `WindDown` is what may
  follow: `selector_destroy` unregistering one descriptor after the other while resolver threads go on.
* **The invariant** (`Invariant.dfy`) and its preservation: `Frames`, `Teardown`, `Local`, `RelaySteps`,
  `HandshakeSteps`, `Structure`, `ConnectSteps`, `RequestSteps`, `AnswerSteps`, `Isolation`, `Handlers` (every handler
  and thread step), and `Events`, which ends in `Reachable`. A handler is first shown equal to a small change of the view
  one session has of the world (or to the world without that session), then that change is shown to keep the invariant.
* **Independent measures**: `Wire.dfy` (what the sends of a handler come to), `Codes.dfy` (reply codes and usable
  addresses in numbers). The theorems that use them say what an event does from the results of its calls alone, without
  naming the code: `Traffic.dfy` (bytes through the relay), `Endings.dfy` (why a session ends), `Outcomes.dfy` with
  `Histories.dfy` (connects, attempts, lookups), `Negotiation.dfy` (every stage byte by byte), `Console.dfy` (management
  commands and their replies).
* **The theorems**: `Ownership.dfy` (who owns what, in every run and through every shutdown; `Shutdown.dfy` has its
  mechanics), `Atomicity.dfy` (why handling a lookup's answer may count as one step), `Theorems.dfy`, `Progress.dfy` and
  `Bound.dfy` (how long a handshake can take), `Fragmentation.dfy`, `Independence.dfy` and `Interleaving.dfy` (messages
  in pieces, between anything else), and runs worked out step by step (`NoUsableAddress.dfy`).
* **The server as the program runs it** (`Sessions.dfy`, `Server.dfy`). A session is an object with four buffers of 4096
  bytes, their lengths and offsets; `Valid` says that these stay within the buffers and that sessions share no memory.
  The server's methods are the handlers of `client_session.c`, `target_connection.c`, `metrics.c` and the event loop:
  they receive into the buffers, parse in place, send from the offsets, and re-enter the selector as the program does.
  Each is proved to refine its step of the transition system, so `ServeFromStart` and `ServeThenStop` put every server
  that handled any events, and was stopped in any way, in a state the theorems are about. Freeing a session takes it out
  of the server's map of pointers; using a pointer that is not there is the fault that is proved never to happen.
* **The pieces below it**, each imperative and proved against a map, a queue or a text: the selector's table
  (`Selector.dfy`), the user table (`Users.dfy`), the comparison automaton and its engine (`Automaton.dfy`), the
  compacting buffer (`Buffer.dfy`), the management protocol from the client's argument list to the user table and back
  to the reply's text (`Management.dfy`). The wire format is in `Socks5.dfy` and `Messages.dfy`.

## What the code relies on

These are assumptions of the code, not of the proofs; where the code fails, a theorem states exactly when.

* The selector is made for 1024 elements (`src/server/server.c:144`), so its table has 1025. `selector_register` grows
  the table only for `fd > fd_size` (`src/utils/selector.c:349`), and `selector_unregister_fd` and
  `selector_set_interest` index it without looking at its size. `Selector.Apply` says when a call leaves the table's
  memory, `Selector.FullTablesStayInBounds` that a table for 1024 elements never does as long as no close handler adds
  or removes a descriptor being closed, `Selector.SmallTablesDoNot` what goes wrong otherwise, and
  `Selector.SessionsCloseCleanly` that the proxy's close handlers are of the good kind.
* A refused request is answered with the reply code of the last errno or of the lookup's status, and 0 maps to
  "succeeded" in both. So a lookup that succeeds without any IPv4 or IPv6 address, with a list or without one, and an
  attempt that fails leaving errno 0, tell the client "succeeded" and then disconnect it.
  `Theorems.RefusalSaysSuccessIff` proves that a refusal says so in these cases and in no other,
  `Theorems.RefusalsAreExplained` what every other refusal says, `Theorems.NothingUsableSaysSuccess` that a lookup without
  usable addresses always does it, and `NoUsableAddress.ClientIsToldSuccess` gives a run for every such answer.
* Bytes a client sends beyond the message being decided are dropped (`read_len = 0`), so the negotiation is for clients
  that wait for each reply. In the model as in the code, such bytes go if they arrived in the deciding read.
* The character classes given to the comparison automaton have 256 entries, as `src/utils/include/parser.h:63` says;
  `parser_no_classes` returns a table of 255.
* The greeting chooses passwords whenever they are offered, also when no user is configured; the repository's own
  README speaks only of accepting no authentication in that case. The model follows the code.

## Model

| member | source | states |
|---|---|---|
| `Ownership.NothingIsTouchedAfterItIsGone` | src/server/client_session.c:55-102 | In every run and every winding down after it, nothing uses a freed session, job or list, frees or closes anything twice, frees a session a registration points to, calls a handler that does not exist, or reaches the stale errno test |
| `Ownership.DescriptorsAreOwned` | src/utils/selector.c:335-412 | In all those states the open descriptors are exactly the registered ones, and each belongs to one live session in one role |
| `Ownership.JobsHaveOneOwner` | src/server/target_connection.c:39-62 | Under every interleaving of events, unregistrations and thread steps an allocated resolver job has exactly one owner, its thread or the one session waiting for it; a thread about to free a job is one whose session is gone |
| `Ownership.ListsHaveOneHolder` | src/server/target_connection.c:157-189 | Likewise an allocated address list is held by exactly one of the thread, the published job, or one session |
| `Ownership.FinishedLookupsAreFreed` | src/server/target_connection.c:180-189 | Once the session that asked is gone and the thread has ended, neither job nor list is left, whichever came last |
| `Ownership.NothingLeaks` | src/server/client_session.c:77-102 | Once all sessions are closed and all threads ended, no descriptor, registration, job or list is left |
| `Ownership.IdleServerHoldsNothing` | src/server/server.c:198-217 | When the session count the orderly shutdown waits for is zero, no descriptor, job, list, thread or notification is left |
| `Ownership.ShutdownReleasesSessions` | src/utils/selector.c:308-320 | From any reachable state, unregistering all descriptors in any order with threads running in between frees every session once, closes every descriptor once, counts no session, and leaves only what threads own |
| `Ownership.ShutdownReleasesEverything` | src/utils/selector.c:308-331 | And once every thread has had the turns it needs, at most three, nothing at all is left, however the turns came |
| `Shutdown.WindDownKeepsCore` | src/utils/selector.c:308-331 | Any unregistrations and thread steps keep registrations, lookups and counters consistent and take away what they unregister |
| `Shutdown.TurnsCount` | src/server/target_connection.c:157-189 | A thread ends after exactly the turns its place in resolve_target calls for, whatever happens in between |
| `Atomicity.AnsweringCommutesWithThreads` | src/server/target_connection.c:507-570 | Taking a finished answer, all of it, commutes with every step of every resolver thread, also in the middle, so counting it as one step loses no interleaving |
| `Theorems.NotificationsAreDue` | src/utils/selector.c:484-506 | While the server runs every job is waited for, every thread has its job, and the queued notifications are for distinct client descriptors of resolving sessions whose job is done and whose thread ended |
| `Wire.FlushMoves` | src/server/client_session.c:107-126 | Every send loop moves on by exactly what the kernel took in the unbroken run of successful sends, up to the end, and breaks off exactly when the peer is lost before the end |
| `Traffic.MovesAreMade` | src/server/client_session.c:152-209 | In every reachable state an event adds to what each session received and sent on exactly the bytes recv brought into an empty buffer and as many of the next buffered bytes as the sends took |
| `Traffic.TwoWays` | src/utils/selector.c:450-482 | A descriptor that is readable and writable is handled as one that is readable and then writable |
| `Traffic.RelayForwards` | src/server/client_session.c:152-222 | In any run, told from the results of recv and send alone: what a peer sent is what the kernel took towards the other side followed by what is buffered; afterwards a prefix |
| `Traffic.BytesAreCounted` | src/server/metrics.c:24-30 | The byte counters are the bytes the kernel took, in all sessions together |
| `Theorems.RelayConserves` | src/server/client_session.c:152-209 | At any moment, for both directions, the recorded bytes received are those sent on followed by what is buffered; after the session, what was sent on is a prefix |
| `Endings.SessionsEndForAReason` | src/server/client_session.c:55-75 | In every run a session ends with an event exactly when a peer is gone, the kernel broke off before the rest of a buffer was out, the greeting is no SOCKS 5, or the last reply of a closing session went out |
| `Endings.RepliesGoOut` | src/server/client_session.c:104-145 | Of a pending reply the client gets as many bytes as the kernel takes; then the session reads on, relays, or is gone |
| `Endings.EndOfStreamLosesNothing` | src/server/target_connection.c:238-279 | When a peer's stream ends, the session ends and the kernel has taken everything that peer sent |
| `Theorems.EndedStreamsAreDrained` | src/server/target_connection.c:238-279 | A session that ended because a peer's stream ended has forwarded every byte of that peer |
| `Theorems.RelayIsArmedOneWay` | src/server/client_session.c:21-53 | In a started relay exactly one of reading the producer and writing the consumer is armed, per direction |
| `Theorems.ReadInterestFitsStage` | src/server/client_session.c:224-372 | The client is read only in the negotiation with no reply pending and at most 512 bytes held, or in a started relay with an empty buffer |
| `Theorems.NoSessionIsStuck` | src/utils/selector.c:484-534 | Every live session has an armed descriptor, or a lookup whose thread is at work, about to notify, or has notified |
| `Theorems.AnswersAreOwn` | src/server/target_connection.c:507-553 | Whatever list a session ever used answered the name and port of its own request, and what it may try are the entries of that answer with family 2 or 10, all and in order |
| `Theorems.LiteralRequestsUseTheirAddress` | src/server/target_connection.c:482-505 | A request that spells out an address may try that address with its port and family 2 or 10, and an unresolved one nothing |
| `Codes.FilterPicks` | src/server/target_connection.c:424-432 | Of a list exactly the entries with family 2 or 10 are tried, in order |
| `Codes.NothingPicked` | src/server/target_connection.c:424-432 | Nothing is tried exactly when no entry has family 2 or 10 |
| `Codes.RepliesAreListed` | src/server/target_connection.c:120-155 | The reply codes of errno and getaddrinfo errors, number by number |
| `Histories.StartConnectionPast` | src/server/target_connection.c:391-422 | An attempt gets under way exactly when connect does and its descriptor is below 1024; otherwise it is recorded with its errno and leaves no descriptor |
| `Histories.StartNextPast` | src/server/target_connection.c:424-444 | The attempts made are those on the usable addresses ahead, each with the result of its own calls, up to the first that gets under way |
| `Outcomes.PendingConnects` | src/server/target_connection.c:281-334 | In every run a pending connect is told to have succeeded exactly when SO_ERROR is 0; any other report marks that attempt, the addresses left are tried in turn, and only then is the client refused with the code of the last error |
| `Outcomes.LookupsReport` | src/server/target_connection.c:157-170 | What a resolver thread brings back is what its own lookup returned |
| `Outcomes.ThreadsNotify` | src/server/target_connection.c:172-183 | A thread publishes that in its job, then puts the descriptor of the waiting session in front of the queue, and is done |
| `Outcomes.AnswersAreActedOn` | src/server/target_connection.c:507-570 | The first queued notification leads to a refusal with the code of the lookup, or to attempts on the usable entries of its answer in turn |
| `Theorems.FallbackIsComplete` | src/server/target_connection.c:424-444 | Addresses tried are a prefix in order of the usable ones, all but the last failed, success means the last connected, failure means all were tried, with the listed code of the last errno |
| `Theorems.RefusalsAreExplained` | src/server/target_connection.c:528-567 | Every refusal has its reason, in the bytes the client gets: 1, 7 or 8 for a request that cannot be taken up; for an unresolved name the listed code of its own lookup's status, or 1 when no lookup started; otherwise the listed code of the last errno after all addresses failed |
| `Theorems.RefusalSaysSuccessIff` | src/server/target_connection.c:120-155 | A refusal carries code 0 exactly when a lookup succeeded with no entry of family 2 or 10, or the last attempt left errno 0 |
| `Theorems.NothingUsableSaysSuccess` | src/server/target_connection.c:538-567 | A successful lookup without usable addresses, or without a list, always leads to the success code and a closing session |
| `NoUsableAddress.ClientIsToldSuccess` | src/server/target_connection.c:538-567 | For every such answer, a run from the start in which nothing is ever tried and the client is told "succeeded" and closed |
| `Theorems.ServedSessionsWereAdmitted` | src/server/client_session.c:250-307 | A session being served presented a pair that was configured when decided and carries that name, or was greeted with nobody configured offering no authentication and no passwords |
| `Theorems.NothingWithoutAdmission` | src/server/auth.c:7-49 | No request was ever taken up, address tried or byte relayed without such admission |
| `Theorems.AdmittedSessionsIgnoreUserChanges` | README.md:92-94 | What a session past the negotiation does next is the same under any user table |
| `Theorems.RepliesFollowDecisions` | src/server/client_session.c:259-307 | A pending reply is the method reply, the credentials reply or the CONNECT reply that the recorded decision calls for, byte by byte |
| `Theorems.CountersAreExact` | src/server/metrics.c:5-30 | Live sessions, accepted sessions, outcomes and relayed bytes are counted exactly, with at most one CONNECT reply per session |
| `Theorems.AccessRecordsAreTrue` | src/server/target_connection.c:64-118 | A session has one access record exactly when its request was answered and names a destination, with the admitted user, that destination and port, and the outcome |
| `Theorems.WouldBlockChangesNothing` | src/server/client_session.c:120-122 | A receive or send that would block leaves the whole world as it was |
| `Progress.HandshakeIsBounded` | src/server/client_session.c:104-145 | Until the relay starts, every event leaves a session alone, ends it, starts its relay, or decreases stages, addresses, reply bytes or room, in that order |
| `Bound.HandshakeTakesAtMost` | src/server/client_session.c:104-373 | In any run whose lookups return at most L addresses, a new session is changed by at most 28215 (L + 1) + 512 events before the one that starts its relay or ends it |
| `Progress.ReadyDescriptorsMove` | src/utils/selector.c:450-482 | A ready descriptor of a session in the handshake changes it unless its call would block |
| `Events.StepKeeps` | src/utils/selector.c:450-506 | Every event keeps the invariant |
| `Events.Reachable` | src/utils/selector.c:536-579 | The invariant holds after any events |
| `Teardown.ClientCloseIs` | src/server/client_session.c:77-102 | client_close, entered with or without its descriptor forgotten, takes away the session and what only it owned: both descriptors, its list, and its job unless the thread still needs it |
| `Teardown.CloseConnectionEnds` | src/server/client_session.c:55-75 | Closing a connection is the world without that session and without anything only it owned |
| `Teardown.UnregisterClientEnds` | src/utils/selector.c:378-412 | So is unregistering its client descriptor, through the re-entrant close handlers |
| `Teardown.UnregisterTargetIs` | src/server/target_connection.c:228-236 | Unregistering a target descriptor closes and forgets it and leaves the session |
| `Teardown.DetachIs` | src/server/target_connection.c:39-62 | Detaching frees a finished job with its list and orphans a running one, and nothing else |
| `Teardown.FreeAddressesIs` | src/server/target_connection.c:31-37 | Exactly the list the session holds is freed, and its cursor with it |
| `Teardown.WithoutKeepsAccounts` | src/server/metrics.c:10-14 | Counting a session out keeps every counter exact |
| `Local.ApplyKeeps` | src/server/client_session.c:104-177 | However a handler leaves its session, settled, closed or unregistered, the invariant of everything holds |
| `Handlers.ClientReadKeeps` | src/server/client_session.c:179-373 | client_read in any stage keeps the invariant, changes no other session, and starts at most one lookup |
| `RelaySteps.ReadRelayLeaves` | src/server/client_session.c:182-222 | client_read in the relay takes bytes only into an empty buffer, offers them to the target at once, and settles or ends its session |
| `RelaySteps.TargetReadLeaves` | src/server/target_connection.c:238-279 | Likewise for target_read towards the client |
| `RelaySteps.WriteLeaves` | src/server/client_session.c:104-177 | client_write leaves its session as the sends say: waiting, closed, unregistered, reading on, or relaying |
| `Negotiation.ConnectionsAreAccepted` | src/server/client_session.c:382-435 | A connection gets a session of its own exactly when its descriptor is below 1024; otherwise nothing changes |
| `Negotiation.GreetingsAreAnswered` | src/server/client_session.c:234-288 | What one more read does at the greeting, by the bytes then held: wait, drop, or the reply [5, method] and its stage |
| `Negotiation.CredentialsAreAnswered` | src/server/auth.c:11-49 | Likewise for credentials: wait, or [1, 0] and the name stored exactly for a configured pair, else [1, 1] |
| `Negotiation.RequestsAreAnswered` | src/server/socks5.c:74-174 | Likewise for the request: wait, a refusal with code 1, 7 or 8 by its first bytes, attempts on a literal address, or a lookup started for exactly that name and port |
| `HandshakeSteps.GreetingFollows` | src/server/client_session.c:234-288 | A greeting settles its session: waiting for the rest, or answering what was decided |
| `HandshakeSteps.AuthFollows` | src/server/client_session.c:290-307 | So do credentials |
| `Handlers.ReadRequestKeeps` | src/server/client_session.c:309-360 | A request that waits, is rejected or is taken up keeps the invariant and concerns its session only |
| `RequestSteps.BeginNameKeeps` | src/server/target_connection.c:446-480 | Beginning a lookup leaves its session waiting for it, or refused when it cannot start |
| `RequestSteps.BeginAddressKeeps` | src/server/target_connection.c:482-505 | Beginning a connection leaves its session connecting, or refused when it fails at once |
| `ConnectSteps.StartConnectionKeeps` | src/server/target_connection.c:391-422 | Whatever a connection attempt returns, its socket is registered for the session or closed and forgotten, and the attempt is recorded |
| `ConnectSteps.StartNextKeeps` | src/server/target_connection.c:424-444 | Advancing the address cursor keeps the invariant, whatever the attempts return |
| `Handlers.TargetWriteKeeps` | src/server/target_connection.c:300-361 | target_write, for a pending connect or in the relay, keeps the invariant and concerns its session only |
| `AnswerSteps.TakeAnswerKeeps` | src/server/target_connection.c:528-570 | Taking an answer frees its job, hands its list over once, and leaves the session connecting or refused |
| `Handlers.ThreadStepKeeps` | src/server/target_connection.c:157-189 | Every step of a resolver thread keeps the invariant |
| `Handlers.AcceptKeeps` | src/server/client_session.c:382-435 | An accepted connection gets its own session, descriptor and registration, or is closed |
| `Handlers.DispatchKeeps` | src/utils/selector.c:450-482 | A ready descriptor concerns its own session only, also when its read handler closed it |
| `Events.DrainKeepsAwaited` | src/utils/selector.c:484-506 | Draining a notification ends exactly the job it is about |
| `Proxy.Flush` | src/server/client_session.c:107-126 | A send loop never moves past the end and reports that it drained exactly when it reached it |
| `Socks5.DecideRequest` | src/server/socks5.c:98-120 | The request stage waits exactly while the request is incomplete, and never rejects with the success code |
| `Socks5.UndecidedIsShort` | src/server/auth.c:14-34 | Undecided input is at most 256, 512 and 261 bytes in the three stages |
| `Messages.GreetingIsDecided` | src/server/client_session.c:234-283 | A greeting message is decided by which methods it offers and whether users are configured, whatever follows it |
| `Messages.AuthIsDecided` | src/server/auth.c:11-49 | Credentials are accepted exactly when the input starts with the message spelling a configured pair |
| `Messages.RequestIsParsed` | src/server/socks5.c:122-174 | Encoding any IPv4, IPv6 or domain request and parsing it, with anything behind it, returns it |
| `Messages.ParsedIsARequest` | src/server/socks5.c:74-96 | Whatever is accepted starts with the encoding of what was parsed |
| `Fragmentation.DecisionsAreStable` | src/server/client_session.c:234-355 | A decision on a prefix is the decision on every extension |
| `Fragmentation.FragmentsAreOneRead` | src/server/client_session.c:224-360 | In every reachable state, bytes arriving in any pieces, each under its own user table, lead to the world they lead to at once when the deciding piece comes, up to how many bytes the history remembers of a decided message |
| `Interleaving.StepAside` | src/utils/selector.c:450-506 | Undecided bytes of a session are invisible to every event that is not its own |
| `Interleaving.FragmentsMayInterleave` | src/server/client_session.c:224-360 | A message arriving in pieces between any other events is decided as if all of it had arrived with its last piece, in the same world |
| `Sessions.StoreBytes` | src/server/client_session.c:224-233 | Bytes land from the given position on and nowhere else |
| `Sessions.ClientState.Receive` | src/server/client_session.c:224-233 | Received bytes follow those held, within the buffer |
| `Sessions.ClientState.LoadUp` | src/server/client_session.c:188-199 | The relay buffer holds what was received, from offset 0 |
| `Sessions.ClientState.FlushReply` | src/server/client_session.c:107-126 | The loop moves the offset by what the kernel took, up to the length, and ends drained, blocked or broken as the sends say |
| `Sessions.Offers` | src/server/socks5.c:6-24 | The scan finds a method exactly when it is offered |
| `Sessions.GreetingParse` | src/server/client_session.c:234-283 | Two scans of the buffer choose the method the greeting decides on |
| `Server.Server.Changed` | src/server/include/server.h:28-57 | Writing to one session, its buffers included, changes that session and no other |
| `Server.Server.Unregister` | src/utils/selector.c:378-412 | Runs the close handler and clears the item as the transition system does, and reports whether it was registered |
| `Server.Server.UpdateRelayInterests` | src/server/client_session.c:21-53 | Flags set one by one from lengths and offsets are the interests that follow from the buffered bytes |
| `Server.Server.ClientWrite` | src/server/client_session.c:104-150 | Sends the pending reply from its buffer, then closes, starts the relay, reads on, or sends relayed bytes |
| `Server.Server.ClientFlush` | src/server/client_session.c:152-177 | Sends relayed bytes to the client and rearms |
| `Server.Server.PumpDown` | src/server/client_session.c:152-172 | The send loop moves offset, history and counter together by what the kernel took, up to the length |
| `Server.Server.ReadHandshake` | src/server/client_session.c:224-233 | What recv returns lands behind what the buffer holds, within the room left, and is decided on as the stage says |
| `Server.Server.StartNext` | src/server/target_connection.c:424-444 | The loop over the address cursor does what the recursion over its list does |
| `Server.Server.TargetFlush` | src/server/target_connection.c:336-361 | Sends relayed bytes to the target and rearms |
| `Server.Server.PumpUp` | src/server/target_connection.c:336-356 | The send loop moves offset, history and counter together by what the kernel took, up to the length |
| `Server.Server.Serve` | src/utils/selector.c:536-579 | Any events are handled as a run of the transition system, in memory that stays well formed |
| `Server.Server.Destroy` | src/utils/selector.c:308-331 | Descriptors are unregistered, with threads running in between, as winding down says |
| `Server.ServeFromStart` | src/server/server.c:144-217 | A server that handled any events from the start satisfies the invariant without fault |
| `Server.ServeThenStop` | src/server/server.c:219-240 | So does one that was then destroyed, with threads still running |
| `Selector.CapacityIsEnough` | src/utils/selector.c:172-188 | The size for n is the least power of two above it, capped at 1024, plus one, so n fits for every n up to 1024 |
| `Selector.NextCapacity` | src/utils/selector.c:172-188 | The shifting loop computes that size |
| `Selector.FdSelector.constructor` | src/utils/selector.c:289-306 | A selector for 1024 elements has 1025 free items |
| `Selector.FdSelector.EnsureCapacity` | src/utils/selector.c:245-287 | Success means n < fd_size <= 1025, every registration is kept, and each failure has its cause |
| `Selector.FdSelector.ItemsMaxFd` | src/utils/selector.c:210-222 | The largest descriptor in use, or 0 |
| `Selector.FdSelector.UpdateFdSets` | src/utils/selector.c:224-238 | The sets change at this descriptor only, to its interest |
| `Selector.FdSelector.Register` | src/utils/selector.c:335-376 | The map gains the registration exactly on success, growing as needed; each failure has its cause, and asking for the descriptor that equals the size is found out of bounds |
| `Selector.FdSelector.SetInterest` | src/utils/selector.c:414-431 | The map changes the interest of a registered descriptor; a descriptor beyond the table is out of bounds |
| `Selector.FdSelector.Unregister` | src/utils/selector.c:378-412 | With any nested calls of the close handler, the map loses what they and it remove, or the call is out of bounds exactly when the map semantics with bounds says so |
| `Selector.FdSelector.Perform` | src/utils/selector.c:335-431 | Any sequence of calls, nested ones included, refines the bounded map |
| `Selector.FullTablesStayInBounds` | src/utils/selector.c:335-431 | A table for 1024 descriptors never leaves its memory and is the unbounded map, as long as no close handler adds or removes a descriptor being closed |
| `Selector.SmallTablesDoNot` | src/utils/selector.c:347-354 | Smaller tables do: at the descriptor that equals the size, at any beyond it, and when a close handler unregisters its own descriptor |
| `Selector.ClosingStays` | src/utils/selector.c:394-408 | A descriptor being closed stays registered through whatever its close handler does |
| `Selector.SessionsCloseCleanly` | src/server/client_session.c:85-92 | The proxy's teardown of any session of any run is such a nested removal |
| `Users.UserTable.FindUser` | src/server/users.c:27-36 | The slot of a name, or -1 exactly when nobody has it |
| `Users.UserTable.FindFree` | src/server/users.c:38-46 | A free slot, or -1 exactly when there are ten users |
| `Users.UserTable.Init` | src/server/users.c:48-58 | The first ten pairs, added in order; up to ten complete pairs with different names are all configured, and nobody else |
| `Users.DistinctPairsAreConfigured` | src/server/users.c:48-58 | Adding such pairs in order configures exactly them |
| `Users.UserTable.Count` | src/server/users.c:64-74 | The size of the map, at most ten |
| `Users.UserTable.CredentialsAreValid` | src/server/users.c:76-94 | True exactly for a configured pair |
| `Users.UserTable.Add` | src/server/users.c:96-118 | The pair comes in exactly when both fields have 1 to 255 bytes, the name is new and there are fewer than ten users; otherwise nothing changes, and Invalid, Exists and Full each have their condition |
| `Users.AddingIsExact` | src/server/users.c:96-118 | The same of the map semantics |
| `Users.UserTable.Remove` | src/server/users.c:120-135 | The name goes exactly when it is given and there; otherwise nothing changes, and the result says why |
| `Users.RemovingIsExact` | src/server/users.c:120-135 | The same of the map semantics |
| `Users.UserTable.FormatList` | src/server/users.c:137-166 | The full listing in slot order, cut to the buffer size minus one |
| `Users.NeverMoreThanTen` | src/server/include/users.h:8-9 | Neither adding nor removing makes more than ten users |
| `Users.RemovingUndoesAdding` | src/server/users.c:96-135 | A user that was added has valid credentials, and removing it undoes the addition |
| `Automaton.Parser.Feed` | src/utils/parser.c:49-82 | Takes the first matching transition of the row, with its actions; with none it stays |
| `Automaton.Parser.Find` | src/utils/parser.c:59-80 | The loop finds the first match |
| `Automaton.Parser.Reset` | src/utils/parser.c:44-47 | Back to the start state |
| `Automaton.StrCmpI` | src/utils/parser_utils.c:74-137 | The generated arrays are the automaton of the pattern, with every destination a state |
| `Automaton.OneByte` | src/utils/parser_utils.c:100-126 | In every state some transition matches any byte, and it reports how the longer input compares |
| `Automaton.Compare` | src/utils/parser_utils.c:46-72 | After any nonempty input the last event is EQ, MAYEQ or NEQ exactly as the input is equal to, a proper prefix of, or neither, ignoring case |
| `Buffer.ByteBuffer.WriteAdv` | src/utils/buffer.c:49-55 | What was stored behind the write position joins the queue |
| `Buffer.ByteBuffer.ReadAdv` | src/utils/buffer.c:57-68 | The front of the queue goes, and an emptied buffer starts over |
| `Buffer.ByteBuffer.ReadByte` | src/utils/buffer.c:70-80 | The first byte, or 0 |
| `Buffer.ByteBuffer.WriteByte` | src/utils/buffer.c:82-88 | One more byte, if there is room |
| `Buffer.ByteBuffer.Compact` | src/utils/buffer.c:90-103 | Contents stay and all consumed space is given back |
| `Buffer.ByteBuffer.Operate` | src/utils/include/buffer.h:24-82 | Any operations refine a bounded queue |
| `Buffer.OperationsMove` | src/utils/buffer.c:49-103 | As many bytes come in as there is room for, as many go out as are wanted and held, and compaction returns all consumed space |
| `Buffer.QueueConserves` | src/utils/include/buffer.h:24-25 | What came out followed by what is held is what was accepted, within the capacity |
| `Management.BuildCommand` | src/client/client.c:113-139 | The arguments separated by single spaces, or failure exactly when they do not fit |
| `Management.SendCommand` | src/client/client.c:59-87 | Success exactly when the whole line went out, in order |
| `Management.TokensOfJoin` | src/server/management.c:47-49 | Tokenising joined arguments gives them back |
| `Management.LineCarriesTheArguments` | src/server/management.c:44-49 | The server reads from the client's line the arguments it was given |
| `Management.CommandsArrive` | src/server/management.c:138-157 | A command delivered in any pieces is answered only with the last piece, as the command with those arguments |
| `Console.AddUser` | src/server/management.c:58-75 | ADDUSER with a name and a password, in any letter case: who is configured afterwards and the exact reply |
| `Console.DelUser` | src/server/management.c:76-93 | DELUSER with a name likewise |
| `Console.Usage` | src/server/management.c:61-79 | With any other number of arguments both get the usage and change nothing |
| `Console.StatsReport` | src/server/management.c:53-55 | STATS and METRICS change nothing, and their reply reads back as the seven counters |
| `Console.UsersList` | src/server/management.c:56-57 | USERS replies with the count and the lines of the slots in use |
| `Console.ListingIsReadable` | src/server/users.c:137-166 | The names read back from the listing are those of the slots in use, in order |
| `Console.OtherCommands` | src/server/management.c:94-105 | QUIT, HELP and anything else get their texts and change nothing |
| `Console.WordsAreSplit` | src/server/management.c:47-49 | Spaces and tabs are passed over and end a word |
| `Console.CommandEnds` | src/server/management.c:44-45 | A command ends at the first NUL, carriage return or newline |
| `Console.LinesAreAnswered` | src/server/management.c:138-169 | A command is answered exactly when its line has ended or 1023 bytes are there; before that it is only collected |
| `Management.StrTok` | src/server/management.c:47-49 | One call of strtok, cutting the buffer in place, returns the next token and leaves the others |
| `Management.Connection.Read` | src/server/management.c:138-169 | Framing by newline or full buffer, then the response |
| `Management.Connection.ReadAll` | src/server/management.c:138-157 | Reads one after the other refine the console |
| `Management.Connection.PrepareResponse` | src/server/management.c:39-102 | The users are those the tokens of the command leave, and the output is the full text of the reply they get, counters and listing included, cut to the buffer |
| `Management.Connection.Terminate` | src/server/management.c:44-45 | The string in the buffer becomes the command text |
| `Management.Connection.Write` | src/server/management.c:111-136 | The offset moves by what the kernel took; the connection closes exactly when all went out or the peer is lost |
| `Management.MetricsAreReadable` | src/server/management.c:15-37 | Reading the values back from a metrics reply gives the counters, exactly |

## Left out

- Sockets, pselect, signals, fcntl, thread creation and memory allocation: their results are inputs of the handlers, and allocation fails only where a failing lookup start or a failing growth of the selector's table stands for it.
- Start-up, passive sockets and signal handling in `src/server/server.c`, the argument parser, and the file the access log is written to (its records are kept in the history).
- `src/utils/netutils.c` and `src/utils/stm.c`: blocking copies and a state machine the server does not use.
- Text of `selector_error`: a table lookup.
- Accepting several connections at once: the loop of `accept_connection` is several events, as is draining the whole queue of notifications under its lock.
- Handlers.ThreadStepKeeps: a failing lookup yields no list, as getaddrinfo promises; a list of zero addresses counts as none.
- Theorems.AccessRecordsAreTrue: a numeric destination is recorded by its address bytes, not by the text of inet_ntop.
- Server.Server.PumpDown: counters are unbounded, so the wrap-around of 64-bit counters is not modelled.
- Handlers.TargetWriteKeeps: the value of SO_ERROR is taken as reported, and a readiness report is any boolean.
- Handlers.DispatchKeeps: a handler is one step; that thread steps in the middle of it do not matter is proved for taking an answer, the handler that goes on after its critical section, and for freeing a job.
- Descriptors of the listening and management sockets share the table in the program; here they are simply descriptors that are not free. Notifications are never for them, as `Theorems.NotificationsAreDue` says.
- Ownership.ShutdownReleasesEverything: a thread that is about to notify does so into a queue that still exists; the program frees the selector after unregistering, so a notification sent after that is not covered.
- Server.Server.Serve: jobs, lists, threads and the selector's registrations are maps from pointers and descriptors, not laid out in memory; the registrations' layout is that of `Selector.dfy`.
- The errno and EAI values are those of Linux; EAI_NODATA is taken as defined.
- `stress_test.py`, `stress_echo_server.py` and the other scripts and tests.
