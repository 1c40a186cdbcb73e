# Konnectivity: a Dafny model of the tunnelling proxy

Frontends (gRPC streams, HTTP-CONNECT clients, callers inside the server) ask the
proxy server to dial. The server picks an agent, forwards DIAL_REQ over the agent's
stream and multiplexes DATA and CLOSE packets of all connections over it. This project
models the parts of that system that race with each other, and proves what holds in
every interleaving.

## How it is modelled

* A concurrent protocol is a transition system: a state, a datatype of actions, and a
  total function `Step` under which an action that is not enabled changes nothing. One
  action is one critical section, one channel operation, one packet send or one system
  call. `Runs.Run` applies a sequence of actions, so a lemma about all sequences is
  about all interleavings, of any number of dials, connections, agents and calls.
* Objects whose fields are updated under one lock are classes. Each method is tied to a
  function on values, or to the property itself, and loops over Go maps take their keys
  in any order. Where the code waits on a condition, the method reports that it would.
* Timeouts, context cancellation, scheduling, random draws and the network are actions
  or nondeterministic choices; clocks are integers that do not go back.
* Safety theorems come with a lemma that such runs exist where that is not obvious, so
  that they are not true of a model in which nothing happens.

| files | part of the system |
|---|---|
| `DialProtocol`, `DialProofs`, `DialSteps`, `DialSafety`, `DialTallies`, `DialConservation` | the life of a dial: PendingDial, established, Close, agent loss, stream shutdown |
| `PendingDials`, `Established` | the two maps as objects; dials in flight |
| `AgentEndpoint`, `EndpointProofs`, `AgentConnections` | an endpoint connection of the agent, and all of them |
| `ServerConn`, `Pipeline` | the net.Conn of the server, and the way of the bytes from the remote to Read |
| `WriteSide`, `WritePath` | its write side, and the way of the bytes from Write to the remote |
| `HttpConnect`, `BackendWatch` | the HTTP-CONNECT frontend, and the end of an agent stream |
| `RoutingIndex`, `BackendStorage`, `DialCost`, `DestHost`, `HostNames` | registration of backends and choice of one |
| `SendQueue` | the queue in front of an agent stream |
| `ReusableTunnel` | the reusable tunnel of the client library |
| `ClientSet` | the agent's clients |
| `LeaseCollector` | the lease garbage collector |
| `Runs`, `Bytes`, `Options`, `Ranging` | shared vocabulary |

## What the environment is taken to do

* Dial IDs are fresh. `PendingDials` also covers an ID that is used again.
* An agent gives each connection an ID of its own, never 0, and answers only dials that
  were sent to it over the same stream. It sends no DATA of a connection after its
  CLOSE_RSP, which `EndpointProofs.Ordered` states and every step of the agent keeps.
* A stream on which a send has failed keeps failing; a socket on which a write has
  failed keeps failing.
* A read from the remote that reports the end of the stream carries no bytes.
* To an HTTP-CONNECT frontend DATA is sent only after a successful DIAL_RSP, as the
  receive loop does. That a DIAL_RSP is attempted at most once is a condition of the
  results in `HttpConnect`; `DialSafety.OneAnswerPerDial` proves it of the server for
  every dial that was pending, counting sends that fail. A dial for which there is no
  agent never is, and gets its one answer on a path of its own.
* Every write to a lease gives it a version that was not used before.

## Findings

* The agent may be asked more than once to close a connection. DATA that was on its way
  when the connection was removed is answered with another CLOSE_REQ
  (`DialSafety.InProcessAskedTwice`). Apart from those, for a connection dialled inside
  the server there is exactly one request, or none if the agent ended the connection
  (`DialSafety.ClosedExactlyOnce`). For a connection of a gRPC or HTTP-CONNECT stream the
  cleanup and the handler of a refused DIAL_RSP may both ask
  (`DialSafety.StreamAskedTwice`).
* A connection of a stream can be left behind (`DialSafety.StreamConnectionLeaks`): the
  cleanup looks for connections between the claim of the dial and addEstablished, and
  the DIAL_RSP is then sent without an error. `DialSafety.LeakAfterShutdown` proves that
  this is the only way; it cannot happen if sends to the stream fail once its cleanup
  has begun.
* When an agent's stream is lost, Read reports a plain end of file although bytes may be
  missing (`Pipeline.LostAgentLooksLikeEnd`). So it does when the agent is stopped while
  its reader holds a chunk, although the agent's CLOSE_RSP arrives
  (`Pipeline.StoppedAgentLooksLikeEnd`). `Pipeline.EndOfFileMeansAllReturned` says exactly
  when no byte is missing: after the CLOSE_RSP, if and only if the agent's reader has kept
  none, which is so if the remote ended the stream.
* A bracketed IPv6 literal without a port loses its last group
  (`HostNames.BracketedWithoutPortIsCut`): "[::1]" gives the key ":"
  (`HostNames.LoopbackIsCut`). Section 3.2.2 of RFC 3986 allows such a host.
  `HostNames.KeyOfBareHost` says exactly which addresses without a port are their own key.
* The comment on the routing index says that each identifier is listed by the draining
  state of its primary backend. An entry may be behind (`RoutingIndex.FlagBeforeMark`).
  Every operation that lists an identifier lists it right (`RoutingIndex.AddedIsListedRight`,
  `RoutingIndex.MarkSettles`, `RoutingIndex.RemoveSettles`), and from then on it is listed
  right if and only if its primary was not flagged in between
  (`RoutingIndex.ListedRightUntilFlagged`).
* Without a write queue (size 0) an ordered CLOSE_RSP closes an HTTP-CONNECT socket also
  after a write that failed (`HttpConnect.FailedWriteThenOrderedClose`). The socket then
  lacks DATA if and only if that write lost bytes; with a queue it never does
  (`HttpConnect.OrderedCloseComesAfterAllData`).
* A lease that has a renewal or acquire time and no duration crashes the collector
  (`LeaseCollector.CrashNeedsMissingDuration`, an if-and-only-if). No lease after it in
  the list is looked at (`LeaseCollector.Gc`), and none is deleted later
  (`LeaseCollector.CrashEndsCollection`).

## Model

| member | source | states |
|---|---|---|
| `DialSafety.OneAnswerPerDial` | pkg/server/server.go:1204-1289 | in every run at most one of the eight claiming paths gets a dial; the server attempts at most one DIAL_RSP or DIAL_CLS to its frontend, counting sends that fail and refused ones, so no failure after a success, and a success is the agent's own answer |
| `DialSafety.ClosedExactlyOnce` | pkg/server/conn.go:367-400 | in every interleaving of the DIAL_RSP handler with a dialer that gives up or closes: when both are done the connection is in neither map and, not counting answers to late DATA, the agent was asked to close it exactly once if and only if it had not ended it, and not at all otherwise; at no time more than once |
| `DialSafety.InProcessAskedTwice` | pkg/server/server.go:1299-1304 | a run in which late DATA makes the server ask a second time |
| `DialSafety.GivenUpIsStillClosed` | pkg/server/conn.go:384-391 | the race in which the dialer gives up after the handler has claimed the dial does occur and ends with one CLOSE_REQ by the handler |
| `DialSafety.LeakAfterShutdown` | pkg/server/server.go:737-752 | after the cleanup of a frontend stream and the handler are done: the number of close requests of the server's own is exactly one for a refused DIAL_RSP plus one if the cleanup took the connection; unless the agent ended it, the connection is left in the map if and only if it was added after the cleanup had looked and the DIAL_RSP was taken |
| `DialSafety.StreamConnectionLeaks` | pkg/server/server.go:1235-1245 | a run in which that happens |
| `DialSafety.StreamAskedTwice` | pkg/server/server.go:1235-1256 | a run in which the agent is asked twice |
| `DialSafety.LossDropsItsOwn` | pkg/server/server.go:1179-1184 | when an agent's receive loop ends exactly the connections over that backend leave the map; those over other backends of the same agent stay |
| `DialSafety.LostBackendHasNoConns` | pkg/server/server.go:1154-1200 | after that no connection over the backend is established again |
| `DialConservation.ConnectionsAreConserved` | pkg/server/server.go:556-664 | in every reachable state, connections ever added are those established plus those counted closed under the four reasons plus those whose counter update is under way |
| `PendingDials.CountersCountPending` | pkg/server/server.go:161-231 | at every moment of every run no counter of dials in flight is negative, also while a dial is added under an ID in use, and between operations each is the number of pending dials over its backend |
| `PendingDials.CostNeedsNoClamp` | pkg/server/backend_manager.go:121-133 | so the clamp in dialCost never fires and every cost is at least the floor |
| `PendingDials.Manager.Add` | pkg/server/server.go:161-172 | the dial is pending, one under the same ID is replaced and no longer counted |
| `PendingDials.Manager.Remove` | pkg/server/server.go:174-184 | hands out the pending dial and takes it off the map and the counter |
| `PendingDials.Manager.RemoveForBackend` | pkg/server/server.go:189-205 | removes and returns exactly the dials over the backend, each once; nothing for nil |
| `PendingDials.Manager.RemoveForStream` | pkg/server/server.go:210-231 | removes and returns exactly the dials of the stream, each once; nothing for an empty ID |
| `Established.Server.AddEstablished` | pkg/server/server.go:556-566 | the pair of agent and connection ID looks up the new connection, all other pairs are as before, no inner map is empty |
| `Established.Server.RemoveEstablished` | pkg/server/server.go:568-586 | hands out the connection and removes exactly it; an agent without connections is removed |
| `Established.Server.GetFrontend` | pkg/server/server.go:588-600 | finds a connection if and only if it is there |
| `Established.Server.RemoveEstablishedForBackendConn` | pkg/server/server.go:602-628 | removes exactly the connections of the agent over the backend; fails if the agent has none |
| `Established.Server.RemoveEstablishedForStream` | pkg/server/server.go:640-664 | removes exactly the connections of the stream, on all agents |
| `Established.Server.GetCount` | pkg/server/server.go:630-636 | the sum over the inner maps is the number of connections |
| `Established.DeleteMatching` | pkg/server/server.go:613-619 | deleting while ranging over a map, in any order, removes exactly the matching connections |
| `EndpointProofs.ClosedAtMostOnce` | pkg/agent/client.go:407-519 | in every interleaving dialDone, sendDone, sendCh and dataCh are each closed at most once, and the clean CLOSE_RSP is sent at most once, after all DATA of the connection |
| `EndpointProofs.SentIsPrefixOfRead` | pkg/agent/client.go:595-685 | in every interleaving the bytes sent to the server are a prefix of the bytes read from the remote, and all of them when the remote ended and the clean CLOSE_RSP is sent |
| `EndpointProofs.WrittenIsPrefixOfPushed` | pkg/agent/client.go:687-736 | in every interleaving, across partial writes, the bytes written to the remote are a prefix of those queued for it, and all of them when no write failed |
| `AgentConnections.GaugeCountsManaged` | pkg/agent/client.go:94-117 | for any number of connections the open-endpoint gauge is the number of managed connections; connection IDs are not 0 |
| `ServerConn.ReadFromConserves` | pkg/server/conn.go:222-261 | a Read returns the next unread bytes and loses none, returns some when there are any, reports a close by the agent only when nothing is left, and a local close at once |
| `ServerConn.Conn.Read` | pkg/server/conn.go:222-261 | Read is that specification, or the deadline passes and no byte is lost |
| `ServerConn.Conn.HandleData` | pkg/server/conn.go:185-199 | DATA goes behind the unread bytes; it is refused exactly after a close and waits exactly while the buffer is full |
| `ServerConn.Conn.HandleClose` | pkg/server/conn.go:201-213 | the first close decides the error; what was received stays readable |
| `ServerConn.Conn.HandleDialSuccess` | pkg/server/conn.go:170-183 | the connection ID is taken if and only if the connection is not closed |
| `ServerConn.Conn.MarkClosed` | pkg/server/conn.go:369-381 | Close marks the connection and reads its ID, keeping an earlier error |
| `Pipeline.ReturnedIsPrefixOfRead` | pkg/server/server.go:1291-1327 | in every interleaving of agent, receive loop, Read and Close the bytes Read returns are a prefix of the bytes the agent read from the remote |
| `Pipeline.EndOfFileMeansAllReturned` | pkg/server/conn.go:185-261 | in every interleaving, when Read has reported an end and nobody closed locally, it has returned every byte of the packets taken from the agent; these are every byte the agent read if and only if they are all that was sent and the agent holds and lost none; once the agent's CLOSE_RSP was taken, if and only if its reader holds and lost none, and so if the remote had ended |
| `Pipeline.LostAgentLooksLikeEnd` | pkg/server/server.go:1178-1200 | a lost agent is reported as a plain end of file, with bytes missing |
| `Pipeline.StoppedAgentLooksLikeEnd` | pkg/agent/client.go:631-636 | a stopped agent whose reader held a chunk is reported as a plain end of file without it, though its CLOSE_RSP was taken |
| `Pipeline.EveryStreamCanBeDelivered` | pkg/agent/client.go:595-685 | for every stream of chunks there is a run that returns all of it and then EOF |
| `WriteSide.WireIsWhatWasReported` | pkg/server/conn.go:265-362 | in every interleaving the DATA on the stream is the concatenation of the prefixes the Writes reported, without gaps, plus at most one packet: the last on the stream, and the chunk at which a Write reported an error; a Write without error reports all its bytes |
| `WriteSide.PacketsAreBounded` | pkg/server/conn.go:265-274 | every packet is nonempty and at most 32768 bytes |
| `WriteSide.NothingSentAfterTimeout` | pkg/server/conn.go:349-355 | no packet of a Write that starts after a timeout during a send is on the stream |
| `WriteSide.EveryWriteCanGetThrough` | pkg/server/conn.go:265-274 | any sequence of Writes can all succeed, and then the stream carries exactly their bytes |
| `WritePath.RemoteGetsPrefixOfReported` | pkg/agent/client.go:521-543 | in every interleaving of Writes, the agent stream and the agent the bytes written to the remote are a prefix of those on the stream, so, when no Write is in progress, of what the Writes reported and at most one chunk more; until the agent closes dataCh, what it took is what was written, lost to a failed write, in hand and queued, in that order |
| `WritePath.EveryWriteCanReachRemote` | pkg/agent/client.go:687-736 | any sequence of Writes can all succeed and exactly their bytes reach the remote, for any capacity of the channels |
| `HttpConnect.SocketCarriesPrefix` | pkg/server/tunnel.go:398-449 | in every interleaving with at most one DIAL_RSP, with or without a queue, the socket carries a prefix of the response followed by the DATA in order; connected is closed at most once |
| `HttpConnect.TwoAnswersCloseTwice` | pkg/server/tunnel.go:426-449 | with a second successful DIAL_RSP connected would be closed twice |
| `HttpConnect.OrderedCloseComesAfterAllData` | pkg/server/http_connect_frontend_writer.go:78-107 | a stream closed by an ordered CLOSE_RSP carried the handshake and exactly the DATA accepted before it if and only if no byte was lost to a failed write by then, which with a queue always holds |
| `HttpConnect.FailedWriteThenOrderedClose` | pkg/server/tunnel.go:402-418 | without a queue a write can fail, its DATA be missing, and the stream be closed in order |
| `HttpConnect.GaugeCountsFullQueue` | pkg/server/http_connect_frontend_writer.go:109-149 | with at most one DIAL_RSP the stream counts for at most one in the full-queue gauge, for none once closed, and between updates exactly if its queue is full |
| `HttpConnect.EveryStreamCanBeDelivered` | pkg/server/http_connect_frontend_writer.go:45-107 | for every sequence of DATA there is a run in which the socket carries all of it and is closed in order |
| `BackendWatch.CleanEndNeverAborts` | pkg/server/server.go:108-117 | once the end of the agent's stream was received and the watcher has not run yet, no continuation aborts the frontend, whatever fails or is retired afterwards |
| `BackendWatch.AbortTakesFailure` | pkg/server/server.go:103-117 | in every interleaving a frontend is aborted only after a failed transport or a retired backend |
| `BackendWatch.FailureAborts` | pkg/server/server.go:108-117 | a failed transport does abort |
| `RoutingIndex.IndexAgreesWithMap` | pkg/server/backend_manager.go:445-564 | after every run of add, remove, mark, repair and flag publication each registered identifier occurs exactly once in exactly one list, others in none, those in the draining list have a draining primary, and no entry is empty or holds a backend twice |
| `RoutingIndex.FlagBeforeMark` | pkg/server/backend_manager.go:395-398 | an entry of the non-draining list can have a draining primary |
| `RoutingIndex.MarkSettles` | pkg/server/backend_manager.go:515-527 | after every run, marking the primary or repairing the entry lists the identifier by the state of its primary |
| `RoutingIndex.RemoveSettles` | pkg/server/backend_manager.go:530-564 | so does a removal that leaves it registered |
| `RoutingIndex.AddedIsListedRight` | pkg/server/backend_manager.go:500-507 | and its first registration |
| `RoutingIndex.ListedRightUntilFlagged` | pkg/server/backend_manager.go:395-398 | from any reachable state in which an identifier is listed right, over any run without those operations on it, it is listed right if and only if its primary was not flagged in between |
| `RoutingIndex.SwapRemoveRemoves` | pkg/server/backend_manager.go:445-453 | swap-remove takes exactly the identifier out of a list without duplicates |
| `RoutingIndex.RefreshRepairs` | pkg/server/backend_manager.go:458-479 | a refresh puts one identifier right whatever its entry was, and shortens the non-draining list for a draining one |
| `RoutingIndex.DrawsAreThePairs` | pkg/server/backend_manager.go:660-664 | the two draws give every ordered pair of distinct candidates exactly once |
| `BackendStorage.RemoveWhileRanging` | pkg/server/backend_manager.go:544-552 | removing in place while ranging over the old slice removes exactly that backend and keeps the order of the rest |
| `BackendStorage.Storage.RefreshIdentifierState` | pkg/server/backend_manager.go:458-479 | is the refresh for the flag it read, and leaves the index right |
| `BackendStorage.Storage.AddBackend` | pkg/server/backend_manager.go:481-510 | refuses an identifier type it does not accept, appends a backend once, indexes a new identifier by the flag it read |
| `BackendStorage.Storage.MarkIdentifierBackendDraining` | pkg/server/backend_manager.go:515-527 | only the primary moves its identifier; a flag published before the call takes effect |
| `BackendStorage.Storage.RemoveBackend` | pkg/server/backend_manager.go:530-564 | removes the backend, the entry with the last one, and leaves the index right |
| `BackendStorage.Storage.PreferredBackend` | pkg/server/backend_manager.go:600-629 | the chosen candidate costs less than twice the other, and is the less occupied unless the other costs at least twice as much |
| `BackendStorage.Storage.Round` | pkg/server/backend_manager.go:645-677 | a round of the loop draws in range and distinct, and returns a primary that was not draining before, or shortens the non-draining list |
| `BackendStorage.Storage.GetRandomBackend` | pkg/server/backend_manager.go:637-692 | ends, stays in range, finds a backend if and only if one is registered, returns a primary, and one that was draining before only if every primary is draining by the end, with flags published at any time |
| `DialCost.CostIsAtLeastTheFloor` | pkg/server/backend_manager.go:121-133 | a cost is at least the floor, and grows by at least the floor with each dial in flight |
| `DialCost.ChosenCostsLessThanTwice` | pkg/server/backend_manager.go:600-629 | the chosen one costs less than twice the other, and is the less occupied unless the other costs at least twice as much |
| `DialCost.AverageIsBetweenSamples` | pkg/server/backend_manager.go:107-116 | for every sequence of samples the recorded latency lies between the least and the greatest since the last gap longer than the window |
| `DialCost.RepeatedSampleHalves` | pkg/server/backend_manager.go:107-116 | after k recorded samples of the same latency within the window, the distance of the recorded latency to it is divided by 2^k, up to rounding |
| `DialCost.DialStats.ObserveDial` | pkg/server/backend_manager.go:107-116 | records a sample as the specification says |
| `DialCost.DialStats.DialCost` | pkg/server/backend_manager.go:121-133 | computes the specified cost |
| `DestHost.MapUnderConcurrentCalls` | pkg/server/desthost_backend_manager.go:39-70 | in every interleaving of calls for any number of backends, identifier by identifier, each key holds exactly the backends added under it and not yet removed, once each and in the order they were added under it |
| `DestHost.MapIsSpecification` | pkg/server/desthost_backend_manager.go:39-70 | after every run of calls one after another the map holds for every key the registered backends advertising it, once each and in order of registration, and no other key |
| `DestHost.Manager.AddBackend` | pkg/server/desthost_backend_manager.go:39-53 | the loops over the three kinds of identifiers add the backend under each |
| `DestHost.Manager.RemoveBackend` | pkg/server/desthost_backend_manager.go:55-69 | and remove it from each |
| `DestHost.Manager.Backend` | pkg/server/desthost_backend_manager.go:72-104 | finds one if and only if the host is given and advertised: the first that is not draining, or the first if all drain |
| `HostNames.JoinThenRemove` | pkg/util/net.go:44-52 | taking the port off a joined host and port gives the host back if and only if it has no colon or no bracket at an end |
| `HostNames.CanonicalKey` | pkg/server/tunnel.go:192-198 | the key for a bracket-free host name and a colon-free port, or none, is that host name |
| `HostNames.KeyOfBareHost` | pkg/util/net.go:27-52 | exactly which addresses without a port are their own key |
| `HostNames.BracketedWithoutPortIsCut` | pkg/util/net.go:34-52 | a bracketed IPv6 literal without a port is never looked up under its address |
| `HostNames.LoopbackIsCut` | pkg/util/net.go:44-52 | the key of "[::1]" is ":" |
| `SendQueue.FifoOverAllRuns` | pkg/server/backend_manager.go:213-241 | in every interleaving attempted, in hand and queued packets are the accepted ones in order, there is at most one sender, and a nonempty queue has one |
| `SendQueue.EveryPacketIsAttempted` | pkg/server/backend_manager.go:223-241 | from every reachable state the sender can attempt every accepted packet |
| `ReusableTunnel.SlotsAreReleasedOnce` | konnectivity-client/pkg/client/client.go:307-407 | for any number of concurrent calls the wait group is the number of slots held, and every slot is released exactly once on every path |
| `ReusableTunnel.NoSlotAfterClosing` | konnectivity-client/pkg/client/client.go:325-334 | no slot is reserved once a Close has begun |
| `ReusableTunnel.DoneOnlyWhenDrained` | konnectivity-client/pkg/client/client.go:411-429 | done is closed at most once, only when no slot is held, and before any Close returns |
| `ReusableTunnel.CloseIsNeverStuck` | konnectivity-client/pkg/client/client.go:411-429 | from every reachable state every Close can still return without any action of the peer: the cancellation is enough |
| `ReusableTunnel.ErrorMeansCancelled` | konnectivity-client/pkg/client/client.go:357-406 | a dial that returned an error after reserving a slot has cancelled its stream |
| `ReusableTunnel.FailedDialIsNeverStuck` | konnectivity-client/pkg/client/client.go:395-405 | so from every reachable state its slot can still be released by that dial's own steps: without the peer, without a Close and without any other dial |
| `ReusableTunnel.ClosedConnIsNeverStuck` | konnectivity-client/pkg/client/conn.go:136-179 | once the caller has closed its connection the slot can still be released by that dial's own steps, even if no close response comes |
| `ReusableTunnel.OpenDialHoldsItsSlot` | konnectivity-client/pkg/client/client.go:387-393 | a dial that got its connection holds its slot as long as the peer does not end the stream, the caller does not close the connection and no Close cancels the tunnel |
| `ClientSet.ClosedAtMostOnce` | pkg/agent/clientset.go:146-186 | in every interleaving each client is closed at most once, is open if and only if it is registered under its own server or in the hands of the sync loop, and removeClient returns true at most once for it |
| `ClientSet.OldClientLeavesReplacement` | pkg/agent/clientset.go:173-186 | the exit of a client removes and closes no other |
| `ClientSet.EndClosesAll` | pkg/agent/clientset.go:333-340 | after shutdown every client ever connected is closed exactly once |
| `ClientSet.Set.AddClient` | pkg/agent/clientset.go:146-157 | registers a client if and only if its server has none |
| `ClientSet.Set.RemoveClient` | pkg/agent/clientset.go:159-168 | closes and removes the client of a server, if there is one |
| `ClientSet.Set.RemoveOwnClient` | pkg/agent/clientset.go:173-186 | removes and closes the client if and only if it is still the registered one |
| `ClientSet.Set.ShutdownAll` | pkg/agent/clientset.go:333-340 | closes every registered client once and empties the set |
| `LeaseCollector.OnlyExpiredLeasesAreCulled` | pkg/server/leases/gc_controller.go:56-92 | in every interleaving with renewals every lease the collector deletes is expired at the moment of deletion |
| `LeaseCollector.ExpiryLasts` | pkg/util/leases.go:26-40 | a lease that is not renewed stays expired |
| `LeaseCollector.Gc` | pkg/server/leases/gc_controller.go:77-92 | undisturbed, exactly the expired ones of the listed leases go, up to the first that has a time and no duration |
| `LeaseCollector.CrashNeedsMissingDuration` | pkg/util/leases.go:26-40 | if nobody writes a lease with a time and no duration, some run crashes the collector if and only if there is one at the start |
| `LeaseCollector.CrashEndsCollection` | pkg/server/leases/gc_controller.go:77-92 | after the crash no run deletes another lease |

## Left out

- WriteSide, AgentEndpoint, HttpConnect, ReusableTunnel, SendQueue and the dial protocol are transition systems on values and not objects updated in place, because their goroutines interleave between statements; aliasing of buffers (the copies made at pkg/server/conn.go:194-195 and 312) is not modelled.
- DialSafety.LeakAfterShutdown: of the CLOSE_REQs that a gRPC client sends, those for connections it was told of are counted as passed on; requests naming other IDs, and the requests after DATA with a second connection ID (pkg/server/server.go:947-953), are not modelled.
- ServerConn.Conn.HandleData: it and other waiting operations report that they would wait; fairness of wake-ups is not modelled, and the lemmas about progress say that a run exists, not that the scheduler takes it.
- BackendStorage.Storage.GetRandomBackend: for a storage that does not maintain the index it is called with the two lists empty, as they stay unless identifiers are marked there.
- DialCost.CostIsAtLeastTheFloor: 64-bit overflow of a latency times the dials in flight is not modelled.
- LeaseCollector.Gc: label selection is the choice of the listed names, and a failed list or delete request ends the pass or skips the lease.
- LeaseCollector.CrashEndsCollection: the crash is that of the process, as a panic in wait.UntilWithContext is by default; a restart of the process is not modelled.
- WritePath.RemoteGetsPrefixOfReported: the packets of other connections on the same stream, and the forwarding of CLOSE_REQ behind the DATA, which the agent may receive at any time here.
- The failure path of a dial with no agent, the forwarding of DATA from a gRPC frontend, the reading side of HTTP-CONNECT and the text of HTTP error responses: straight-line code.
- The single-use client tunnel (konnectivity-client/pkg/client/client.go:447-760): it registers a connection after handing out the result, so end-to-end delivery is not claimed through it.
- Token authentication, TLS, gRPC itself, metrics objects, readiness, server counting, flag parsing, backoff and informers.
- DefaultRouteBackendManager: the same storage behind one condition.
- Liveness that depends on peers reading or on flow control.
