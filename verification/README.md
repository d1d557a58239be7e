# A verified model of the DNS and TCP tunnel

The system carries DNS messages and TCP connections between sidecars and one shared agent. A sidecar's ingress bridge
takes DNS requests from UDP clients and remembers, per 16-bit DNS id, which address asked. A channel client frames the
requests onto a unix socket; the agent's session for that sidecar unframes them for the egress bridge, which remembers,
per DNS id, which session asked, and hands them to a forwarder. Replies take the same way back, each looked up by id in
both tables. Around this there are a runner that reconciles running services with each new configuration, task wrappers,
session collections, and a byte relay for TCP.

The model keeps the shape of the program: event loops that update tables are classes with a method per turn, the sweeps
and copies are loops, and reused buffers are arrays. Each class is proved to do, turn by turn, what a small
specification machine does; the lemmas are about every run of that machine.

| file | what it models |
|---|---|
| `Codec.dfy` | DNS messages, the length prefix of RFC 1035 section 4.2.2, the resumable reader, a byte stream in chunks |
| `PendingTable.dfy`, `History.dfy` | the table of pending ids that both bridges keep: first claim wins, one reply per claim, expiry sweep; the same said without a table, from bytes and times |
| `IngressBridge.dfy`, `EgressBridge.dfy` | the two event loops, with the logs of what they take and hand out |
| `FramedLink.dfy` | the channel client and the session, the two ends of the unix socket, with writes that fail part way |
| `Routing.dfy`, `Guarantees.dfy`, `EndToEnd.dfy` | any number of sidecars, one agent, any upstream, any interleaving; what all runs promise; a request all the way up and its reply all the way down |
| `Loopback.dfy` | the egress bridge joined to the loopback forwarder, and when it is an echo |
| `LaunchLog.dfy`, `Reconciler.dfy`, `ClientRunner.dfy` | logs of launches and stops; the service runner; the restarting DNS client |
| `TcpForwarder.dfy`, `TcpInbound.dfy`, `UdpForwarder.dfy` | the two forwarders; what the first reads from a connection |
| `UdpSocket.dfy` | receiving into a reused buffer |
| `Tasks.dfy`, `Sessions.dfy` | the task wrapper, the session collections |
| `Tunnel.dfy`, `Relay.dfy` | a tunnelled TCP connection as a state machine; the byte relays and how they make one |
| `Seqs.dfy`, `Names.dfy` | counting, filtering, logs and subsequences; names |

Time is a natural number that each turn is given twice: `at`, when the event is handled, and `now`, when the sweep
after it reads the clock. What a `select!` picks is an argument of the turn, so the theorems hold for every choice.

Five findings, where the code does less than one might expect, each with its exact condition:

* A reply can be sent or delivered after its request's timeout, because the sweep follows the event. It can exactly when
  a turn may take time and the timeout is not zero (`IngressBridge.NeverLateIff`, `EgressBridge.NeverLateIff`); the
  bound of the timeout plus the longest turn is reached (`IngressBridge.LatestReply`, `EgressBridge.LatestDelivery`).
* The egress bridge on the loopback forwarder is an echo, once everything has come back, if and only if no request
  collided, no entry expired and no reply found its client unregistered or closed (`Loopback.EchoIffLossless`; on the
  run alone, `Loopback.EchoIffQuiet`). Two
  clients that use one id at the same time are one way to lose a reply (`Loopback.SharedIdLosesEcho`).
* A reader kept across abandoned calls stays in step exactly when a call is abandoned before any byte or with the prefix
  just read; a reader made afresh on each iteration only in the first case (`Codec.KeptReaderSameIffSafe`,
  `Codec.FreshReaderSameIffUntouched`). The TCP forwarder makes such readers, so it hands on only what its peer sent if
  and only if no request may come after a byte of a reply (`TcpForwarder.HandsOnInOrderIff`); when one does, a message
  the peer never sent can be handed on (`TcpForwarder.CutRunMisreads`).
* A message longer than 65535 bytes is framed wrongly, and exactly those are (`Codec.RoundTripExactlyWhenFits`). No
  message that long comes into the system: both receive buffers are smaller.
* A host stops both relays of a TCP connection as soon as one has ended, so bytes can be lost without any error
  (`Tunnel.CleanCloseLoses`). A direction is complete exactly when no write failed and neither relay has anything left
  to read (`Tunnel.CompleteIff`; for a stop, `Tunnel.FirstStopLosesIff` and `Tunnel.SecondStopLosesIff`). Among the
  orders in which it can begin to end on the two hosts, exactly one makes completeness sure: on both, this direction's
  relay is the first to end, before any shutdown (`Tunnel.SurelyCompleteIff`).

## Model

| member | source | states |
|---|---|---|
| Codec.RoundTrip | src/dns/mod.rs:25-66 | any sequence of messages that fit the prefix is read back exactly |
| Codec.DecodeAfterEncode | src/dns/mod.rs:25-66 | messages written are all read back whatever bytes follow them |
| Codec.RoundTripExactlyWhenFits | src/dns/mod.rs:59-66 | one message survives the cast of its length to 16 bits if and only if it is shorter than 65536 bytes |
| Codec.SameIdIff | src/dns/mod.rs:54-56 | two messages have the same id if and only if their first two bytes are the same |
| Codec.IdOrder | src/dns/mod.rs:54-56 | the first byte of the id counts for more than the second: ids are big-endian |
| Codec.FrameLayout | src/dns/mod.rs:63-64 | a frame is the length, high byte first, and the message |
| Codec.ShortFrame | src/dns/mod.rs:45-52 | a frame of fewer than two bytes is reported as not enough data, and the reader goes on behind it |
| Codec.EncodeAfterDecode | src/dns/mod.rs:25-43 | re-encoding what the reader returned before its first error gives a prefix of the stream, and nothing more can be read from the remainder |
| Codec.DecodeCharacterised | src/dns/mod.rs:25-66 | what the reader returns, said through the writer alone: the one list of messages whose frames are a prefix of the stream with no readable frame after it |
| Codec.KeptReaderSameIffSafe | src/dns/mod.rs:29-39 | abandoning a call leaves the messages of every stream unchanged if and only if no byte, or exactly the prefix, was consumed |
| Codec.FreshReaderSameIffUntouched | src/dns/forwarder/tcp.rs:120-128 | for a reader made on each iteration this holds if and only if no byte was consumed |
| Codec.ResumableReads | src/dns/mod.rs:29-41 | any number of safely abandoned calls leaves the reports of all completed calls, errors included, as they would have been |
| Codec.InFlightRead | src/dns/mod.rs:25-43 | with whole frames in flight, and perhaps the beginning of one more, a read returns the first message and leaves the rest as it was |
| Codec.InFlightCut | src/dns/mod.rs:63-64 | a write that fails part way leaves the beginning of one frame behind the whole ones |
| Codec.BeginningEnds | src/dns/mod.rs:29-37 | in the beginning of a frame a reader only finds the end of the stream |
| Codec.ByteStream.Poll | src/dns/mod.rs:31-37 | a read takes at most what is asked for from the front of the stream, and nothing only at its end |
| Codec.ByteStream.ReadExact | src/dns/mod.rs:31-37 | exactly the next n bytes however they are chunked, or failure with the stream used up |
| Codec.ByteStream.WriteAll | src/dns/mod.rs:63-64 | all bytes, or those the peer still accepted before the failure |
| Codec.SendDnsMessage | src/dns/mod.rs:59-66 | success appends one whole frame, failure a proper beginning of one |
| Codec.DNSMessageReader.Read | src/dns/mod.rs:25-43 | report, latched length and unread bytes are those of one step of the decoder, on success, short data and end of stream |
| Codec.ReadUntilError | src/dns/mod.rs:25-43 | for any chunks the reader returns what the bytes decode to, then stops |
| PendingTable.Sweep | src/dns/ingress_bridge.rs:72-90 | draining and collecting in any order keeps exactly the entries younger than the timeout |
| PendingTable.Register | src/dns/ingress_bridge.rs:154-157 | insert followed by putting the old entry back is insert-if-absent |
| PendingTable.Opener | src/dns/egress_bridge.rs:199-207 | a pending entry was opened by an earlier request, and neither owner nor creation time has changed since, whatever collided with it |
| PendingTable.AnswersMatchDistinctRequests | src/dns/egress_bridge.rs:158-159 | two replies that find an entry find entries of two different requests, and for one id they alternate |
| PendingTable.PendingIff | src/dns/egress_bridge.rs:158-211 | an id is pending if and only if some request opened it, no reply came since and it was young enough at the last sweep |
| PendingTable.TableIff | src/dns/egress_bridge.rs:158-211 | the table is a function of the history: an id is pending if and only if a claim of it, made while no earlier one lived on, is unanswered and was young at every sweep, and it has that claim's owner and time |
| History.TableByHistory | src/dns/ingress_bridge.rs:128-165 | the same in bytes: by the first two bytes of requests and replies |
| History.CollidesByHistory | src/dns/ingress_bridge.rs:154-157 | a request collides if and only if an earlier one with the same first two bytes is remembered and still waits |
| PendingTable.PendingAreFresh | src/dns/egress_bridge.rs:88-106 | after every step each entry is strictly younger than the timeout |
| PendingTable.AnswersAreFresh | src/dns/ingress_bridge.rs:104-165 | with turns at most a gap apart, a reply answers a request younger than timeout plus gap |
| PendingTable.NoTimeoutNoAnswer | src/dns/ingress_bridge.rs:72-90 | with timeout 0 no reply is ever matched |
| PendingTable.Drains | src/dns/ingress_bridge.rs:146-165 | a sweep a timeout after the last opening leaves the table empty, so collisions extend no lifetime |
| PendingTable.OwnerLedger | src/dns/egress_bridge.rs:158-211 | per id and owner, every request collided, was answered, expired or is pending |
| PendingTable.Ledger | src/dns/egress_bridge.rs:158-211 | over all ids, entries opened are answered, expired or pending |
| PendingTable.TableBounded | src/dns/egress_bridge.rs:130 | at most 65536 entries are pending |
| UdpSocket.RecvFrom | src/dns/ingress_bridge.rs:99-106 | the front of the reused buffer is the datagram, cut to the buffer's size, with no byte of an earlier one |
| IngressBridge.Bridge.Accept | src/dns/ingress_bridge.rs:146-163 | a valid datagram is passed on if the channel takes it and claims its id either way; an invalid one does nothing |
| IngressBridge.Bridge.Reply | src/dns/ingress_bridge.rs:128-145 | a reply whose id is pending goes to the owner's address and removes the entry, whether or not the send succeeds; an unknown one does nothing |
| IngressBridge.Bridge.Step | src/dns/ingress_bridge.rs:101-166 | after any turns the table, the messages passed on and the datagrams sent are those of the specification run |
| IngressBridge.PassedOnByTurn | src/dns/ingress_bridge.rs:146-152 | a datagram of at least two bytes that the channel takes is passed on, whole or its first 1524 bytes, and nothing else ever is |
| IngressBridge.PassedOnAre | src/dns/ingress_bridge.rs:146-152 | what a run passed on is just these datagrams, in the order they came |
| IngressBridge.PassedOnLedger | src/dns/ingress_bridge.rs:146-163 | datagrams received are invalid, refused by the channel or passed on |
| IngressBridge.AcceptedAre | src/dns/ingress_bridge.rs:146-158 | what a run accepted is the valid datagrams with their sources, in order |
| IngressBridge.RepliedByTurn | src/dns/ingress_bridge.rs:128-145 | a message that comes back goes to the address of the remembered, still waiting request with the same first two bytes, if there is one, and nothing else is sent |
| IngressBridge.CollidesIff | src/dns/ingress_bridge.rs:154-157 | requests collide only over their first two bytes |
| IngressBridge.RepliesNeverExceedRequests | src/dns/ingress_bridge.rs:128-163 | datagrams sent to an address with an id, plus a pending entry of it, never exceed those received from it with that id |
| IngressBridge.ReplyHasRequest | src/dns/ingress_bridge.rs:128-165 | each reply answers an earlier request of the same address and id that is young enough |
| IngressBridge.LatestReply | src/dns/ingress_bridge.rs:128-165 | for every positive timeout and every gap, a run of the bridge that sends a reply one unit below the bound |
| IngressBridge.NeverLateIff | src/dns/ingress_bridge.rs:72-165 | no run with turns at most a gap apart sends a reply at or after its request's timeout, if and only if the gap or the timeout is 0 |
| IngressBridge.RepliesAreTaken | src/dns/ingress_bridge.rs:128-138 | what is sent back is a subsequence, unchanged, of what the client handed over |
| IngressBridge.ConservationLedger | src/dns/ingress_bridge.rs:128-165 | datagrams received are invalid, collided or opened an entry; entries opened were answered, expired or are pending, at most 65536 |
| EgressBridge.Bridge.CleanupClients | src/dns/egress_bridge.rs:108-120 | exactly the clients whose channel is open stay |
| EgressBridge.Bridge.FromNetwork | src/dns/egress_bridge.rs:158-189 | a reply uses up its entry in all cases, and is delivered only if the owner is registered and its channel open |
| EgressBridge.Bridge.FromSession | src/dns/egress_bridge.rs:190-208 | a request claims its id only if the forwarder took it |
| EgressBridge.Bridge.Step | src/dns/egress_bridge.rs:131-212 | after any turns both tables, the requests forwarded and the messages delivered are those of the specification run |
| EgressBridge.Registrar | src/dns/egress_bridge.rs:152-157 | a name stands for the channel of its last registration, open at every clean-up since |
| EgressBridge.RegisteredIff | src/dns/egress_bridge.rs:108-157 | a name stands for a channel if and only if it was registered with it, not registered again since, and the channel was alive at every clean-up since |
| EgressBridge.DeliveredByTurn | src/dns/egress_bridge.rs:158-189 | a message that comes back goes to the open channel registered last by whoever made the remembered, still waiting request with the same first two bytes, if there is one, and nothing else is delivered |
| EgressBridge.ForwardedAre | src/dns/egress_bridge.rs:190-199 | what went to the forwarder is the requests it took, in order, each once |
| EgressBridge.MatchOf | src/dns/egress_bridge.rs:158-208 | each delivery answers an earlier accepted request with its id, by the client that owned the entry |
| EgressBridge.DeliveryGoesToRequester | src/dns/egress_bridge.rs:152-189 | it goes to the channel registered last under that client's name |
| EgressBridge.DeliveriesMatchDistinctRequests | src/dns/egress_bridge.rs:158-189 | no request is answered twice |
| EgressBridge.DeliveryIsFresh | src/dns/egress_bridge.rs:88-106 | the request answered is younger than timeout plus gap |
| EgressBridge.LatestDelivery | src/dns/egress_bridge.rs:152-211 | for every positive timeout and every gap, a run of the bridge that delivers a reply one unit below the bound |
| EgressBridge.NeverLateIff | src/dns/egress_bridge.rs:88-211 | no run with turns at most a gap apart delivers a reply at or after its request's timeout, if and only if the gap or the timeout is 0 |
| EgressBridge.RequestLedger | src/dns/egress_bridge.rs:190-211 | requests are refused, collide or open an entry; entries are answered, expire or are pending, at most 65536 |
| EgressBridge.ReplyLedger | src/dns/egress_bridge.rs:158-189 | replies are delivered, lost to a closed channel, without a client, or orphaned; all but the orphaned use up an entry |
| EgressBridge.DeliveriesNeverExceedRequests | src/dns/egress_bridge.rs:152-208 | with one name per channel, a client gets at most as many messages with an id as it had requests forwarded |
| EgressBridge.DeliveriesAreReturned | src/dns/egress_bridge.rs:158-168 | deliveries are a subsequence of what came back from the forwarder |
| FramedLink.WriteKeeps | src/dns/server.rs:61-65 | writing appends one message to those in flight and keeps the stream made of whole frames |
| FramedLink.WriteCutKeeps | src/dns/server.rs:61-65 | a write that fails part way adds no message, whole or in part, to those in flight |
| FramedLink.ReadEnds | src/dns/client.rs:81-90 | when no whole frame is left the reader finds the end of the stream, never a malformed message |
| FramedLink.AbandonKeeps | src/dns/client.rs:62-71 | a read abandoned before any byte, or with just the prefix taken, changes nothing about the messages in flight |
| FramedLink.AbandonKeepsIff | src/dns/mod.rs:29-39 | what an abandoned read has consumed is gone, and this costs no message on any link if and only if it was nothing or just the prefix |
| FramedLink.ReadKeeps | src/dns/server.rs:55-76 | a read returns the oldest message in flight, whole, and ends at a frame boundary |
| FramedLink.Task.Turn | src/dns/client.rs:62-98 | a turn writes one frame or, failing, the beginning of one, or reads one message and hands it to the bridge; it ends on a failed write or read, and goes on if the bridge is gone |
| Routing.WriteMoves | src/dns/client.rs:76-80 | moving the head of a queue onto the socket keeps the order of everything under way |
| Routing.WriteCutLoses | src/dns/client.rs:76-80 | a write that fails part way loses the head of the queue and nothing else |
| Routing.SessionReadFlows | src/dns/server.rs:66-83 | a session turns the oldest frame into one mail to the egress bridge |
| Routing.ClientReadFlows | src/dns/client.rs:81-95 | a channel client turns the oldest frame into one message to the ingress bridge |
| Routing.ConnectOk | src/dns/server.rs:89-119 | a new session starts with nothing under way and its registration in the inbox |
| Routing.EgressTurnOk | src/dns/egress_bridge.rs:131-212 | a turn of the egress bridge moves its input out of the inbox and its output onto one channel, and touches no other sidecar's traffic |
| Routing.ActOk | src/dns/server.rs:36-87 | every action of every task, failing writes and abandoned reads included, keeps all hops of all sidecars in order and accounts for every message, save on a socket one of whose reads was abandoned in the middle of a prefix or a body |
| Routing.RunOk | src/dns/server.rs:36-119 | in every interleaving, for every sidecar, what it passed on is what the egress bridge heard, what is in its inbox, what is on the socket, the at most one message whose write failed, and what is queued, in this order, and likewise on the way down, each unless that very direction of its socket is broken by an unsafe abandonment; the upstream gets exactly what the bridge forwarded, in order |
| Guarantees.SafelyReadIsWhole | src/dns/server.rs:46-55 | a sidecar's socket is broken only by an unsafe abandonment of its own reads, whatever happens to the other sidecars |
| Guarantees.SidecarIsolation | src/dns/egress_bridge.rs:158-208 | in every run a sidecar gets at most as many messages with an id as the agent forwarded for it, and no more of these were forwarded than it passed on; each half needs only its own direction of its own socket whole |
| Guarantees.AddressIsolation | src/dns/ingress_bridge.rs:128-163 | in every run an address gets at most as many replies with an id as it sent requests with that id |
| Guarantees.PayloadIntegrity | src/dns/ingress_bridge.rs:128-138 | in every run the replies of each sidecar whose socket is whole on the way down are, byte for byte and in order, messages the upstream emitted |
| Guarantees.NothingDuplicated | src/dns/egress_bridge.rs:158-168 | all sidecars whose sockets are whole on the way down together get each emitted message at most as often as it was emitted |
| Guarantees.UpstreamGetsRequests | src/dns/egress_bridge.rs:190-208 | the upstream takes what the agent forwarded, in order, and the part from each sidecar whose socket is whole on the way up is a subsequence, byte for byte, of the requests this sidecar accepted |
| Guarantees.ReplyIsCaused | src/dns/ingress_bridge.rs:128-163 | each reply answers an earlier request of the same address and id, in time, with bytes the upstream emitted if the socket is whole on the way down |
| Guarantees.PushIsCaused | src/dns/egress_bridge.rs:158-208 | each message put on a sidecar's channel answers its own request of that very sidecar, with that id, in time |
| Guarantees.AliveIsRegistered | src/dns/server.rs:89-119 | in every run, once its registration is read, a sidecar is registered under its own channel as long as its session lives, whatever the others do |
| EndToEnd.RequestIsAnswered | src/dns/server.rs:178-214 | for every request that fits the buffer and every reply with the same first two bytes there is a run in which the upstream gets the request and the asking address the reply, byte for byte |
| Loopback.EchoIffLossless | src/dns/egress_bridge.rs:131-212 | once everything has come back, deliveries are the accepted requests in order, each for its client, if and only if no request collided, no entry expired and no reply found its client gone |
| Loopback.EchoIffQuiet | src/dns/egress_bridge.rs:131-212 | the same condition on the run alone: no accepted request uses the id of one still in the loop, none in the loop reaches the timeout at a sweep, and the client of each that comes back is registered with an open channel |
| Loopback.LosslessIffQuiet | src/dns/egress_bridge.rs:131-212 | at any time, whether or not everything has come back, the two conditions are equivalent |
| Loopback.EchoRefinement | src/dns/forwarder/mod.rs:87-90 | as long as nothing is lost in these ways, deliveries followed by the echo of what is still in the queue are the accepted requests in order, and the table holds exactly the requests in the queue, each under its client |
| Loopback.EchoPerClient | src/dns/forwarder/mod.rs:87-90 | the same for each client by itself |
| Loopback.SharedIdLosesEcho | src/dns/egress_bridge.rs:201-206 | a run in which two clients share an id and the second gets no echo |
| LaunchLog.CallsAlternate | src/service.rs:51-116 | in a well-formed log the calls about each name alternate launch and stop |
| LaunchLog.EveryTaskStopped | src/service.rs:64-70 | if nothing is left alive every launched task has been stopped |
| LaunchLog.StoppedOnce | src/service.rs:64-113 | and none twice |
| LaunchLog.NeverTwoAtOnce | src/service.rs:76-99 | of two tasks of one name the first is stopped before the second is launched |
| Reconciler.NothingNeededIffMatches | src/service.rs:71-113 | no call is needed if and only if the configuration is the one running |
| Reconciler.ReloadIsMinimal | src/service.rs:71-113 | calls that are just those needed number one per added or removed name and two per changed name, and none at all if and only if the configuration already runs |
| Reconciler.Runner.StartUpdated | src/service.rs:76-99 | in any order of names the first loop starts the new, restarts the changed and leaves the others alone |
| Reconciler.Runner.RemoveMissing | src/service.rs:102-113 | the second loop stops exactly what is no longer configured |
| Reconciler.Runner.Reload | src/service.rs:71-114 | what runs equals the new configuration, unchanged services keep their task, each name gets exactly the calls it needs, and their number is added plus removed plus twice changed |
| Reconciler.Runner.Shutdown | src/service.rs:64-70 | nothing is left running, by stops alone |
| Reconciler.Runner.Run | src/service.rs:51-116 | over any reloads and a shutdown the log goes through every configuration in turn: between two marks are just the calls that bring about the next one, after the last mark only stops; each name's calls pair up, and every task launched is stopped |
| ClientRunner.Runner.StartServices | src/dns/service.rs:125-152 | bridge and channel client are started together or not at all, with none alive before |
| ClientRunner.Runner.Iterate | src/dns/service.rs:183-218 | the tasks alive are exactly the pair held, an iteration makes just the starts and stops of its case, and the placeholder state remains only after a shutdown |
| ClientRunner.Runner.Run | src/dns/service.rs:182-218 | over all inputs the loop goes on until a shutdown and tries failed starts again, one attempt and at most one pair per input that says how a start went; the placeholder is never found, and after the loop every bridge and client ever started has been stopped exactly once |
| TcpForwarder.NextOk | src/dns/forwarder/tcp.rs:90-163 | every input keeps the invariant of the machine |
| TcpForwarder.RunOk | src/dns/forwarder/tcp.rs:88-164 | messages are taken first in first out, each written whole to one connection or lost as the last of one; each peer decodes exactly what was written to it; a connection is attempted only with a message pending; the placeholder state is never met |
| TcpForwarder.OneLossPerWriteError | src/dns/forwarder/tcp.rs:148-158 | the number of lost messages is the number of write errors |
| TcpForwarder.StoppedIff | src/dns/forwarder/tcp.rs:90-164 | the loop has stopped if and only if it saw a shutdown, its bridge's closed queue empty, or a message the bridge no longer takes |
| TcpForwarder.StateAfter | src/dns/forwarder/tcp.rs:90-164 | while it goes on, it connects if and only if there is something to send, and is connected until a read, a write or the connection fails; then it waits |
| TcpForwarder.GivingUpKeepsQueue | src/dns/forwarder/tcp.rs:136-146 | a connection lost while reading leaves it running, waiting, and with its queue as it was |
| TcpForwarder.IncompleteReadWaits | src/dns/forwarder/tcp.rs:120-122 | a read with a message not yet whole waits |
| TcpForwarder.ClosedPeerIsLeft | src/dns/forwarder/tcp.rs:136-146 | a peer that closes then is noticed, and the loop goes back to waiting |
| TcpForwarder.RequestIsSent | src/dns/forwarder/tcp.rs:148-158 | the head of the queue goes to the connection, as far as it takes it |
| TcpForwarder.WaitingSends | src/dns/forwarder/tcp.rs:92-152 | from any waiting state with a request queued, peeking, connecting and sending bring the request to its peer |
| TcpForwarder.ReplyIsHandedOn | src/dns/forwarder/tcp.rs:129-135 | a whole reply at hand goes to the bridge, and the next read starts behind it |
| TcpForwarder.ClosedIff | src/dns/forwarder/tcp.rs:123-126 | the queue is closed if and only if the bridge has gone away |
| TcpForwarder.PartialFrame | src/dns/forwarder/tcp.rs:149-156 | a frame cut short by a failed write decodes to nothing |
| TcpInbound.ReadInStep | src/dns/forwarder/tcp.rs:120-135 | a completed read of an iteration that starts at a frame boundary hands on the next message the peer sent and ends at a boundary |
| TcpForwarder.RunInsOk | src/dns/forwarder/tcp.rs:118-147 | in every run the bridge is handed, connection by connection, the first messages of each peer, as long as no iteration on that connection was cut after a byte |
| TcpForwarder.HandsOnInOrderIff | src/dns/forwarder/tcp.rs:118-128 | this holds for every connection of every run if and only if no request may come when bytes of a reply have been consumed |
| TcpForwarder.CutRunMisreads | src/dns/forwarder/tcp.rs:118-128 | two runs, with a request just after a reply's prefix and with one half way through it, that hand on a message the peer never sent |
| TcpForwarder.Task.WhileWaiting | src/dns/forwarder/tcp.rs:92-105 | peeking takes nothing from the queue; the loop ends only on shutdown or on an empty closed queue |
| TcpForwarder.Task.ReadDns | src/dns/forwarder/tcp.rs:119-122 | a reader made for this read reports what one step of the decoder does on the bytes of the connection |
| TcpForwarder.Task.Receive | src/dns/forwarder/tcp.rs:129-147 | a message goes to the bridge, whose absence ends the loop; a failed read gives the connection up |
| TcpForwarder.Task.Send | src/dns/forwarder/tcp.rs:148-158 | the head of the queue is written whole, or is lost and the connection given up; what the reader had consumed is gone |
| TcpForwarder.Task.WhileConnected | src/dns/forwarder/tcp.rs:118-161 | every branch of the connected state, including which outcomes keep the connection |
| TcpForwarder.Task.Meanwhile | src/dns/forwarder/tcp.rs:118-128 | messages from the bridge and bytes from the peer join the ends of their queues |
| TcpForwarder.Task.Iterate | src/dns/forwarder/tcp.rs:90-164 | taking the state out and putting it back is one step of the machine |
| UdpForwarder.Lookup | src/dns/forwarder/udp.rs:70-105 | a lookup that took up to five seconds is followed by the next five seconds after it began, a slower one five seconds after it ended, up to the lateness of the timer; only the last one found anything or was cut short, and the hosts are what it found |
| UdpForwarder.V4sAre | src/dns/forwarder/udp.rs:74 | the hosts are the IPv4 addresses found, all of them and in order |
| UdpForwarder.EachHostInOrder | src/dns/forwarder/udp.rs:125-131 | each host is sent the requests in order, each as often as the lookup listed the host |
| UdpForwarder.ListedOnceGetsAll | src/dns/forwarder/udp.rs:125-131 | a host listed once is sent exactly the requests |
| UdpForwarder.HandedOnFits | src/dns/forwarder/udp.rs:132-149 | what is handed to the bridge fits the length prefix |
| UdpForwarder.HandedOnAre | src/dns/forwarder/udp.rs:132-149 | what is handed to the bridge is the valid datagrams that come while it listens, whole or their first 2048 bytes, in order |
| UdpForwarder.Forwarder.Step | src/dns/forwarder/udp.rs:109-151 | after any turns the sends are the fan-out of the requests taken, and the messages handed on are the valid datagrams, cut to 2048 bytes |
| Tasks.RunOk | src/task.rs:19-76 | one signal at most, one join at most, no join handle without a sender, a joined task has ended |
| Tasks.DoneStays | src/task.rs:72-76 | the flag never goes back |
| Tasks.ShutdownJoinsIff | src/task.rs:20-28 | a shutdown returns the task's result if and only if no shutdown, drop or completed wait came before |
| Tasks.ShutdownAnswers | src/task.rs:20-28 | otherwise it says that it came too late |
| Tasks.SignalledIff | src/task.rs:20-52 | the signal has gone out, once, if and only if there was a shutdown or a drop |
| Tasks.WaitAnswers | src/task.rs:30-39 | a wait finds nothing if and only if the handle is gone; else it returns the result if the task ends meanwhile, and can be tried again if not |
| Tasks.DoneIff | src/task.rs:72-76 | a task is known to have ended if and only if it ended by itself or was joined |
| Tasks.TaskWrapper.Shutdown | src/task.rs:20-28 | one step of the machine, with its answer |
| Tasks.TaskWrapper.Wait | src/task.rs:30-39 | one step of the machine, also when the wait is abandoned |
| Tasks.TaskWrapper.DropWrapper | src/task.rs:46-52 | a drop signals if no shutdown did, and joins nothing |
| Sessions.TcpSessions.Cleanup | src/tcp/service.rs:92-117 | the sessions kept and those shut down are the two halves of the vector, each in order |
| Sessions.TcpSessions.Run | src/tcp/service.rs:127-154 | every session ever started was shut down once by a clean-up, and that if and only if one found it ended, or signalled once when the loop ended |
| Sessions.DnsServer.Cleanup | src/dns/server.rs:135-141 | exactly the ended sessions leave the map, each counted once |
| Sessions.DnsServer.Accept | src/dns/server.rs:149-165 | a replaced session is shut down, a failed launch changes nothing, and every session started is in the map, shut down or dropped, once |
| Sessions.DnsServer.Shutdown | src/dns/server.rs:143-147 | afterwards every session ever started was shut down or dropped, once |
| Sessions.DnsServer.Run | src/dns/server.rs:135-165 | over any connections and a shutdown, a session is dropped if and only if a clean-up found it ended, and shut down if and only if one of its name replaced it or it was left at the end, once |
| Relay.Forwarder.Fill | src/tcp/fwd.rs:10-19 | the front of the reused buffer is what was read, in order, with no stale byte |
| Relay.Forwarder.Iterate | src/tcp/fwd.rs:11-32 | an iteration is one step of a relay of the specification, for whatever the read finds at hand |
| Relay.StartForwarders | src/tcp/fwd.rs:35-51 | what is read on one side is written on the other, in both directions |
| Relay.Pipe.Step | src/tcp/fwd.rs:11-32 | a turn of one direction, through both its relays, is one step of the specification |
| Relay.Connection.Step | src/tcp/service.rs:35-57 | a turn of a tunnelled connection is one step of its run and leaves the other direction alone |
| Relay.Connection.Tell | src/tcp/service.rs:49-53 | so is being told to shut down |
| Tunnel.HopMoves | src/tcp/fwd.rs:11-32 | what a relay reads it writes, except for the unwritten part of one buffer after a failed write; each way to end has its cause |
| Tunnel.RunOk | src/tcp/service.rs:35-57 | in every run every byte sent has arrived, is lost to a failed write or is unread, in order; a host's first relay to end was stopped only on a shutdown |
| Tunnel.CompleteIff | src/tcp/service.rs:35-57 | at any time what has arrived is a prefix of what was sent, and all of it if and only if no write failed and neither relay has anything left to read |
| Tunnel.SecondStopLosesIff | src/tcp/service.rs:49-55 | after a stop of the second relay a direction is complete if and only if nothing was on its way to it or lost before it, and nothing is sent afterwards |
| Tunnel.FirstStopLosesIff | src/tcp/service.rs:49-55 | after a stop of the first relay it is complete if and only if that relay had nothing left to read, nothing is sent afterwards, and the second brings over what is on the socket |
| Tunnel.LostForGood | src/tcp/service.rs:49-55 | bytes missing when the second relay has ended never arrive |
| Tunnel.CleanCloseLoses | src/tcp/service.rs:49-55 | a run without error or shutdown that loses a byte: the far end closes its own direction while the byte is on its way to it |
| Tunnel.FirstToEndIsComplete | src/tcp/service.rs:49-55 | a direction that ended without an error is complete if on both hosts its relay was the first to end, before any shutdown, whatever became of the other direction since |
| Tunnel.SurelyCompleteIff | src/tcp/service.rs:49-55 | an order of endings on the two hosts makes every direction that ends so, without an error, complete if and only if it is this one |

## Left out

- Sockets, files, signals, tracing, the command line and process exit. Channels are unbounded queues, and `select!` is a choice made by the caller of a turn.
- Fairness and liveness: nothing says that a task is ever scheduled.
- A socket one of whose reads was abandoned in the middle of a prefix or a body: nothing is promised of the messages that cross it in that direction afterwards, only that no other sidecar is touched.
- Shutdown and socket errors of the two bridges: they only leave the loop, so a run may stop after any turn.
- Random session names: sidecars in `Routing.dfy` have distinct names, and one that reconnects counts as a new one.
- The order in which the agent's server, bridge and forwarder are shut down (`src/dns/service.rs:116-118`).
- A failed attempt of the TCP forwarder to connect, which it repeats after five seconds.
- Messages too long for a frame at the TCP forwarder: the receive buffers and the reader make none, and the model's queue takes none.
- Bytes that arrive on a connection the TCP forwarder has given up.
- Panicking tasks and join errors: a joined task has ended normally.
- Parsing of URLs and TOML, the configuration watcher, and the launchers behind the service runner.
- `Forwarder::poll_close` (`src/dns/forwarder/mod.rs:143-148`), which nothing calls.
- The `TestConnection` fixture (`src/testing/mod.rs`), which is not a faithful byte stream.
