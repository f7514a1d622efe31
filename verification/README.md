# A verified model of the publish/subscribe library

The library connects processes into a mesh, tells every process who publishes which channel, negotiates
data ports, and moves data over TCP or a shared-memory slot. This project models its five cores and proves
what they are for, in Dafny 4.11: `dafny verify dfyconfig.toml`.

**Mesh** (`src/mesh.cpp`). `MeshSpec` holds the handlers on values; `MeshProcess` holds the `Host` objects
and the `hosts` vector updated in place, each method proved equal to its handler. `MeshNet` is the machine:
any number of nodes, every connection a pair of FIFO queues, one event per handler run (a user's
`add_host`, a connection opening, a line handled at either end, a refused dial repeated, a broadcast, a
write). `MeshInv`, `MeshCore`, `MeshIncoming` and `MeshGossip` carry the invariant over every event;
`MeshTheorems` says what follows for every run, and `MeshRest` that every run can come to rest.
`MeshHandlers` says of every node and every line, reachable or not, what a handler does to the table and to
each socket, and `HostLoss` what the loss of a connection does to the channel registry. The configuration (`Config.Valid`) gives distinct ids and
one canonical address per node; no node's address is the `localhost` alias another node starts with, and no
user adds a node's own address to itself.

**Directory** (`src/channel.h`, `src/channel.cpp`, `src/signaling.cpp`). `DirectorySpec` and
`DirectoryProcess` are the same pair for the channel registry and the `ChannelImpl` objects. `DirectoryNet`
joins any number of registries by FIFO links. A link comes up with each side's CONNECTED already sent and
nothing before it: that this is what the mesh provides is `MeshTheorems.GateLosesNothing`. Losing a link is
one step that both ends notice. `DirectoryAgreement` proves replication, `OfferExchange` that no
subscription is forgotten, `OfferOrigin` that a subscription is connected to its publisher's own server, and
`OfferTermination` that the exchange ends. All of them hold for runs in which links are lost and come up
again. `DirectoryHandlers` says of every registry and every message what a handler does and sends, and
`DialLog` that whatever port is known has been dialled.

**Shared memory** (`src/utils/shm.cpp`). `ShmSpec` interleaves any number of writing and reading threads
with every `sem_wait`, every byte of a `memcpy` and every `sem_post` as a step of its own. `ShmTheorems`
proves the handoff; `ShmSegment` is the segment as an object with its byte array, whose calls are what an
undisturbed thread does.

**Framing** (`src/utils/Socket.cpp`, `src/utils/Socket.h`). `Framing` has the nested loops over the receive
buffer and the port search, and what they do for every way of cutting the stream.

**Text and ports** (`src/utils/utils.cpp`, `src/protocols/protocols.h`, `src/protocols/tcp.h`). `Text`,
`Description`, `Wire` (joined to the mesh by `MeshWire` and to the directory by `DirectoryWire`) and `Ports`. Round trips that hold only for some
inputs are stated as equivalences with a condition on the input. `Wire.HeardAsSent` puts printing, writing,
chunking, cutting and dispatching together.

Where the code disagrees with itself the evident intent is modelled: `connect_tcp` is called with a port it
does not take (`src/channel.h:197`, `src/channel.cpp:213`); the `SHMServer` constructor takes its buffer size
in the header only (`src/utils/shm.h:60`, `src/utils/shm.cpp:22`); `subscribe` calls a constructor without
its second argument (`src/channel.h:130`).

Properties of the code that turned out to hold only in part, each with its exact condition:

- Encoded names decode to themselves exactly when they hold neither `@@@` nor `@/` (`Text.EncRoundTrip`);
  others collide (`Text.EncCollides`).
- A transport description survives printing exactly when `Description.Stable` holds, a condition on its
  characters; an address containing
  `in` or `out` turns a two-way endpoint into a one-way one (`Description.DescriptionRoundTrip`).
- A message reaches its handler unchanged exactly when its name holds no `|` and its ip no `:`
  (`Wire.WireRoundTrip`); the SHM messages never do (`Wire.ShmLost`).
- A channel gets its port back exactly when its name reads back from the file: fewer than 512 characters
  and no newline before the last (`Ports.RepeatIffLegible`); no call can take a port from its owner exactly
  when all recorded names read back (`Ports.OwnersSafeIffLegible`).
- `str_replace` with an empty search text never returns (`Text.EmptySearchNeverEnds`).
- Pieces of a stream are its own pieces exactly when no chunk boundary tears one (`Framing.AnyChunking`).

## Model

| member | source | states |
|---|---|---|
| MeshTheorems.HigherIdWins | src/mesh.cpp:172-202 | for every run: a connection given up or refused was dialled by the lower id; an accepted one, and any the higher id dialled once its ID= is handled, is held at both its ends by the entries the two nodes have for each other |
| MeshTheorems.OneLiveConnection | src/mesh.cpp:172-202 | for every run: two nodes never have two live connections with each other, whoever dialled |
| MeshTheorems.NothingUndone | src/mesh.cpp:124-151 | going on with a run removes no table entry, changes no remote address, closes no live connection and loses none of the lines sent on it |
| MeshTheorems.HostTable | src/mesh.cpp:38-81 | for every run: hosts[0] is the local host under its own address or its alias, addresses are pairwise distinct, no other entry is the node itself |
| MeshTheorems.GateLosesNothing | src/mesh.cpp:124-151 | for every run: a gossip or signalling line travels behind the sender's CONNECTED on a live connection, and when it is next to be handled the receiving entry is ready, so the not-ready branch never drops it |
| MeshTheorems.NoSelfDial | src/mesh.cpp:206-214 | for every run: no connection was ever dialled to the dialler's own address or alias, although gossip repeats that address to it |
| MeshTheorems.GossipClosure | src/mesh.cpp:237-245 | for every run: of any two ready peers of a node, the first has the second in its table or a Host= line for it is in flight to it |
| MeshTheorems.SettledMeshIsClique | src/mesh.cpp:124-151 | when nothing can move, every entry naming a node is ready and any two nodes joined by a chain of acquaintance know each other directly |
| MeshTheorems.Settled | src/mesh.cpp:172-202 | when nothing can move, an entry that names a node is ready and its connection is live with both queues empty |
| MeshTheorems.Mutual | src/mesh.cpp:172-202 | when nothing can move, knowing a node means being known by it |
| MeshRest.EveryRunCanSettle | src/mesh.cpp:124-202 | every run can be continued, by nothing but connections opening and lines being handled, to a state in which nothing can move, with all it had built still there |
| MeshRest.SocketLowers | src/mesh.cpp:124-202 | opening a connection or handling a line, whichever comes next, leaves fewer addresses unknown, or else less handshake to do, or else fewer lines waiting |
| MeshRest.RivalPending | src/mesh.cpp:188-197 | as long as a refused node holds its dial, the refusing node's own dial to it has not been handled |
| MeshRest.RefusedHasRival | src/mesh.cpp:188-197 | a refused dial never has to be repeated: the dial that beat it can still be opened or handled |
| MeshIncoming.Decide | src/mesh.cpp:185-197 | which branch an incoming ID= takes in any reachable state: unknown peers and higher ids are accepted on a connection still open at the dialler, replacement always displaces an unaccepted dial, lower ids are refused, and a server entry never meets a second dial |
| MeshIncoming.GivenUp | src/mesh.cpp:188-190 | a dial its own dialler gave up belongs to the lower id, and the acceptor holds a dial of its own to that peer |
| MeshHandlers.PeerComesBack | src/mesh.cpp:189-196 | for every node and every peer id: a peer whose entry was accepted before is accepted again; its old socket alone is closed, the new one attached, greeted, and sent CONNECTED exactly when the entry was not ready, every other entry is as it was |
| MeshHandlers.HigherPeerTakesOver | src/mesh.cpp:189-196 | for every node: the dial of a peer with the higher id displaces our own in the same way |
| MeshHandlers.LowerPeerRefused | src/mesh.cpp:197 | for every node: a peer with the lower id that we dial ourselves has its socket closed, and nothing else happens |
| MeshHandlers.SameIdIgnored | src/mesh.cpp:198 | for every node: a peer with our own id is neither accepted nor closed |
| MeshHandlers.StrangerAccepted | src/mesh.cpp:186-188 | for every node: an unknown peer gets an unready entry of its own, and is told our id, our port and its ip before CONNECTED |
| MeshHandlers.IdHeard | src/mesh.cpp:125-134 | the entry has the peer's id and port, and CONNECTED is the answer |
| MeshHandlers.YouHeard | src/mesh.cpp:135-137 | the loopback host has the ip told, and is from then on among the hosts gossiped |
| MeshHandlers.ConnectedHeard | src/mesh.cpp:138-142 | every ready remote host, the new one included, is told each text published here and then of the ready hosts, once; nobody else is written to |
| MeshHandlers.HostHeard | src/mesh.cpp:143-148 | gossip of an unready host is dropped, a known address changes nothing, a new one gets an entry and a dial |
| MeshHandlers.HostLinesName | src/mesh.cpp:237-245 | an address is gossiped exactly when a ready host has it |
| MeshHandlers.HostLinesInOrder | src/mesh.cpp:237-245 | the ready hosts are gossiped one line each, in the order of the table |
| MeshHandlers.BroadcastLines | src/mesh.cpp:160-166 | a broadcast is written once to each ready remote host and to nobody else |
| MeshHandlers.LossHandled | src/mesh.cpp:116-122 | a lost host is not ready any more, its channels are withdrawn once and no other host's, and only then its address is dialled again |
| HostLoss.LostHostWithdrawn | src/signaling.cpp:47-51 | after the loss of a host no channel has it for its publisher, every other channel is as it was, and that host alone is not ready any more |
| HostLoss.WithdrawnBeforeDialled | src/mesh.cpp:116-122 | when the lost host is dialled again, its channels have already lost their publisher |
| HostLoss.OnlyLossWithdraws | src/mesh.cpp:116-122 | in every run, the loss of a connection withdraws the channels of its own host, exactly once, and no other event withdraws any |
| MeshGossip.StepInv | src/mesh.cpp:124-202 | every handler run keeps the mesh invariant and only ever extends tables and queues |
| MeshGossip.RunInv | src/mesh.cpp:124-202 | the mesh invariant holds after every run of any number of nodes |
| MeshGossip.ConnectedInv | src/mesh.cpp:138-142 | handling CONNECTED leaves every ready peer told of every other ready peer |
| MeshProcess.Process.GetHost | src/mesh.cpp:226-234 | the loop finds the first entry with the address, or none when there is none |
| MeshProcess.Process.HasHost | src/mesh.cpp:216-224 | true exactly when an entry has the address |
| MeshProcess.Process.Broadcast | src/mesh.cpp:160-166 | the writes of the specification, which `BroadcastLines` shows to be one to each ready remote host and none to anybody else |
| MeshProcess.Process.BroadcastHosts | src/mesh.cpp:237-245 | one write holding a line for every ready host, loopback included, to every ready remote host |
| MeshProcess.Process.AddHost | src/mesh.cpp:206-214 | the in-place table and the dial are those of the specification; a known address changes nothing |
| MeshProcess.Process.Incoming | src/mesh.cpp:172-202 | all branches on the Host objects leave the table and the socket actions of the specification; a peer with the higher id, or one accepted before, takes its entry over |
| MeshProcess.Process.Replace | src/mesh.cpp:189-195 | replacing a socket closes the old one, changes that entry alone, and sends CONNECTED only to a host that is not ready |
| MeshProcess.Process.EnsureListed | src/mesh.cpp:140 | the guarded push_back on CONNECTED appends the host exactly when no entry has its address, so it never changes the table of a host that is in it |
| MeshProcess.Process.OnReceive | src/mesh.cpp:124-151 | all branches of on_receive on the Host objects leave the table and the socket actions that MeshSpec.OnReceive specifies |
| MeshProcess.Process.OnClose | src/mesh.cpp:116-122 | the host stops being ready, its channels are withdrawn, and then its socket dials the same address again |
| MeshProcess.Process.constructor | src/mesh.cpp:38-50 | a process starts with the loopback host only |
| MeshWire.LineSurvives | src/mesh.cpp:124-148 | a mesh line printed and parsed is the same line exactly when the ip of a Host= line holds no ':' |
| MeshWire.EveryLineSurvives | src/mesh.cpp:101-148 | with addresses free of ':' every handshake or gossip line of every run is read as it was sent |
| DirectoryAgreement.PeersAgree | src/channel.h:116-126 | with one publishing node, after every run with or without losses: handling what is in flight to a ready peer gives that peer the publisher's own state, and a drained link means agreement |
| DirectoryAgreement.NoPhantomPublisher | src/channel.cpp:146-158 | with one publishing node, nobody ever records another, and a peer the publisher does not regard as ready records none |
| DirectoryAgreement.StepInv | src/channel.cpp:80-108 | publishing, unpublishing, subscribing, late joiners, re-announcements, deliveries and link losses keep the agreement invariant |
| DirectoryAgreement.DrainRec | src/signaling.cpp:22-39 | handling a whole queue of messages moves the record of a channel as replaying the PUBLISH and UNPUBLISH among them does |
| DirectoryAgreement.CloseAllPub | src/channel.cpp:146-151 | losing a host withdraws exactly the channels it published |
| OfferExchange.NoSubscriptionForgotten | src/channel.h:188-198 | after every run, losses included, a wanted channel has its link up and an offered port, or a CONNECT_TCP in flight to its publisher, or an OFFER_TCP from it, even across repeated PUBLISH; with both queues empty the port is known |
| OfferExchange.InFlightSound | src/channel.h:116-126 | after every run, losses included: every PUBLISH in flight has type 'P' and names its sender, every UNPUBLISH type 'S' or 'N', every offered port lies in 10000..20000, and the gate is open for whatever is next |
| OfferExchange.StepInv | src/channel.h:168-173 | every event, losses included, keeps each wanted channel served |
| OfferExchange.LossInv | src/signaling.cpp:47-51 | losing a link keeps each wanted channel served: the channels the lost host published have no publisher any more, and the others have kept their links and what was in flight on them |
| OfferOrigin.SubscriptionsReachPublisher | src/channel.h:195-198 | with one publishing node, whatever event comes next after any run, with or without losses, a subscription dials only that node, on the port of that node's own server |
| OfferOrigin.DrainedSubscriberKnowsPort | src/channel.h:233-236 | with one publishing node, after every run, losses included, an empty exchange with it leaves a subscriber that records it holding the port of its server |
| OfferOrigin.StepInv | src/channel.h:216-236 | every event keeps requests going to the one publisher and offers coming from it with its server's port |
| DialLog.OfferIsDialled | src/channel.h:233-236 | after every run, losses included: an offer that reaches a wanted channel makes all its subscriptions dial the publisher on the port offered, once, and nothing else |
| DialLog.KnownPortWasDialled | src/channel.h:195-198 | after every run, losses included: a wanted channel whose port is known has been dialled, at its publisher, on that port, with all the subscriptions it has now |
| DialLog.RequestsGoAbroad | src/channel.h:188-192 | in every run nobody asks itself or a publisher on the same host for a port by TCP |
| DirectoryHandlers.SubscriptionConnects | src/channel.h:129-133 | for every registry: a new subscription is counted, and all of them dial a known port, or ask for it by TCP, or ask a publisher on the same host over SHM |
| DirectoryHandlers.OfferConnects | src/channel.h:233-236 | for every registry: an offer for a channel with a publisher is noted and dialled at once by all its subscriptions |
| DirectoryHandlers.RequestAnswered | src/channel.h:216-224 | for every registry: the one who asks gets the port of the channel's server, made on the first request and kept |
| DirectoryHandlers.StatementHeard | src/channel.cpp:80-86 | for every registry: a 'P' statement makes its sender the publisher, forgets the port, keeps the subscriptions unless they had another publisher, and has them ask again |
| DirectoryHandlers.HearsayHeard | src/channel.cpp:87-93 | for every registry: an 'A' or 'S' statement fills a gap with the host it names and never displaces a publisher |
| DirectoryHandlers.OtherStatementHeard | src/channel.cpp:94-95 | for every registry: a statement of another kind only makes the channel known |
| DirectoryHandlers.WithdrawalHeard | src/channel.cpp:101-108 | for every registry: UNPUBLISH leaves a known channel without publisher and port, whoever sends it |
| DirectoryHandlers.UnknownIgnored | src/channel.cpp:112-132 | withdrawals, requests and offers for an unknown channel do nothing and create nothing |
| DirectoryHandlers.GateClosed | src/mesh.cpp:143 | before its CONNECTED nothing else from a host is heard |
| DirectoryHandlers.ConnectedHeard | src/channel.cpp:154-158 | CONNECTED opens the gate, and each channel published here is announced once, in registry order, and no other |
| DirectoryHandlers.PublishSaid | src/channel.h:116-120 | for every registry: the first publish makes this host the publisher, broadcasts exactly one PUBLISH of that name with this host's address, and nothing else |
| DirectoryHandlers.PublishOnce | src/channel.h:117 | for every registry: publishing again changes nothing and says nothing |
| DirectoryHandlers.UnpublishSaid | src/channel.h:123-126 | for every registry: unpublishing broadcasts exactly one UNPUBLISH, with 'S' exactly when a subscription is left and 'N' otherwise |
| DirectoryHandlers.KindMeans | src/channel.h:176-181 | what each letter says of the channel, in both directions: published here, subscribed but not published here, published elsewhere and unsubscribed, none of these |
| OfferTermination.DeliveryLowers | src/channel.h:216-236 | every message handled lowers the weight in flight: PUBLISH 3, CONNECT_TCP 2, OFFER_TCP 1, and CONNECTED more than all it can announce |
| OfferTermination.ExchangeTerminates | src/channel.h:216-236 | after every run, losses included, no sequence of deliveries is longer than the budget of the messages in flight |
| OfferTermination.HandlerShape | src/channel.h:195-198 | a message other than CONNECTED causes at most one answer, and a lighter one; an offer of a real port causes none |
| DirectoryProcess.Channel.SetPublisher | src/channel.h:168-173 | the channel object and what it sends after setPublisher: a change disconnects, the offered port is forgotten, remaining subscriptions connect again |
| DirectoryProcess.Channel.Connect | src/channel.h:188-192 | a request goes out, or subscriptions dial, only with subscriptions and a publisher elsewhere |
| DirectoryProcess.Channel.OfferTcp | src/channel.h:216-224 | the server is created once and its port is what every offer names |
| DirectoryProcess.Channel.OnOfferTcp | src/channel.h:233-236 | the offered port is noted and, with a publisher known, all subscriptions dial it there |
| DirectoryProcess.Registry.GetChannel | src/channel.cpp:44-47 | the loop finds the first channel of that name, or none when there is none |
| DirectoryProcess.Registry.GetOrCreate | src/channel.cpp:53-57 | the registry holds the channel afterwards, at the place its name is found, and is otherwise as before |
| DirectoryProcess.Registry.Publish | src/libpubsub.cpp:9-14 | exactly one PUBLISH is broadcast, or nothing when this host published the channel already; the registry is that of the specification |
| DirectoryProcess.Registry.Unpublish | src/channel.h:123-126 | unpublishing withdraws the publisher first and says so, with the kind that is left |
| DirectoryProcess.Registry.Subscribe | src/libpubsub.cpp:16-21 | a subscription is counted and the channel connects at once when its publisher is known |
| DirectoryProcess.Registry.ApplyPublish | src/channel.cpp:80-98 | a 'P' statement makes its sender the publisher, 'A' and 'S' only fill a gap, anything else changes nothing |
| DirectoryProcess.Registry.ApplyUnpublish | src/channel.cpp:101-108 | a known channel loses its publisher, an unknown one is not created |
| DirectoryProcess.Registry.MakeOffer | src/channel.cpp:112-116 | a known channel answers with its server's port, an unknown one does not answer |
| DirectoryProcess.Registry.AnswerOffer | src/channel.cpp:126-132 | an offer is noted for a known channel whoever sent it |
| DirectoryProcess.Registry.BroadcastPublished | src/channel.cpp:154-158 | one PUBLISH for each channel published here, in registry order |
| DirectoryProcess.Registry.CloseAll | src/channel.cpp:146-151 | every channel of the lost host loses its publisher, every other channel is untouched |
| DirectoryProcess.Registry.OnLoss | src/signaling.cpp:47-51 | the lost host is no longer ready and its channels are closed |
| DirectoryProcess.Registry.OnMessage | src/signaling.cpp:22-45 | all branches of on_receive and digest_message leave the registry and the messages that DirectorySpec.OnMessage specifies; nothing is heard before CONNECTED |
| ShmTheorems.ExactlyOnceInOrder | src/utils/shm.cpp:70-92 | for any workload and interleaving: the k-th delivery is the beginning of the memory after the first k completed writes, writes exceed deliveries by at most one, and each thread's accesses completed once each in its program order |
| ShmTheorems.TokenConservation | src/utils/shm.cpp:34-36 | semRead, semWrite and the threads between wait and post always add up to one, so no two threads touch the memory together |
| ShmTheorems.StuckOnlyWhenDone | src/utils/shm.cpp:70-92 | a run is stuck only with the slot empty and no writer left or full and no reader left; it then delivered the smaller of the two workloads and wrote at most one more, whatever the schedule |
| ShmTheorems.WorkloadEnds | src/utils/shm.cpp:70-92 | steps taken and work left always add up to the workload, so every finite workload ends |
| ShmTheorems.StepWork | src/utils/shm.cpp:135-156 | each possible step of a thread uses up one unit of the work left |
| ShmTheorems.WriterInv | src/utils/shm.cpp:135-144 | a writer's wait, byte copy or post keeps the handoff invariant |
| ShmTheorems.ReaderInv | src/utils/shm.cpp:146-156 | a reader's wait, byte fetch or post keeps the handoff invariant |
| ShmSegment.UndisturbedWrite | src/utils/shm.cpp:70-79 | a writer that is not interrupted takes len+2 steps and leaves exactly what Segment.Write leaves |
| ShmSegment.UndisturbedRead | src/utils/shm.cpp:82-92 | a reader that is not interrupted takes len+2 steps, delivers the first len bytes and leaves exactly what Segment.Read leaves |
| ShmSegment.Segment.constructor | src/utils/shm.cpp:34-36 | the server starts with semRead 0 and semWrite 1, the start of every workload |
| ShmSegment.Segment.Write | src/utils/shm.cpp:70-74 | the first len bytes are replaced, the rest stays, and the token passes to the readers; nothing happens when the writer would block |
| ShmSegment.Segment.Read | src/utils/shm.cpp:88-92 | the first len bytes are copied out, memory and the rest of the target stay, and the token returns to the writers |
| Framing.AnyChunking | src/utils/Socket.cpp:96-115 | for any chunks: the pieces join to the stream without delimiters, none is empty or holds one, their number is the stream's tokens plus the boundaries that tear one, and they are the stream's own pieces exactly when none does |
| Framing.BoundaryIsDelimiter | src/utils/Socket.cpp:96-115 | a chunk boundary acts as one more delimiter, no more and no less, which fixes every callback |
| Framing.FramingInvertsWriting | src/utils/Socket.h:90-91 | when every chunk ends at a delimiter the callbacks are the texts written, in order, independent of the chunking |
| Framing.PiecesCount | src/utils/Socket.cpp:100-109 | the number of pieces is the number of positions where text begins |
| Framing.Meet | src/utils/Socket.cpp:100-109 | cutting at a boundary changes nothing next to a delimiter and costs exactly one extra piece inside a text |
| Framing.Cut | src/utils/Socket.cpp:100-109 | the nested index loops call back exactly the pieces of the buffer, and report an error exactly when its last byte is no delimiter |
| Framing.Receive | src/utils/Socket.cpp:96-115 | the receiving loop calls back the pieces of every chunk up to the close, or the chunks themselves without line buffering |
| Framing.CStr | src/utils/Socket.h:90-91 | what a string write sends is the text up to its first NUL |
| Framing.BindFirst | src/utils/Socket.cpp:179-189 | the least free port of the range, or failure exactly when there is none |
| Text.StrReplace | src/utils/utils.cpp:17-24 | for a non-empty search text the in-place loop ends, with every leftmost non-overlapping occurrence replaced |
| Text.ReplacedIsJoin | src/utils/utils.cpp:17-24 | replacing is splitting at the search text and joining with the replacement |
| Text.SplitIsLeftmost | src/utils/utils.cpp:17-24 | the split parts joined by the search text are the subject, each ending where the search text first occurs |
| Text.SplitUnique | src/utils/utils.cpp:17-24 | there is no other way to cut a text at its leftmost occurrences |
| Text.EmptySearchNeverEnds | src/utils/utils.cpp:17-24 | with an empty search text the loop goes round any number of times, advancing by the replacement's length |
| Text.FindIsFirst | src/utils/utils.cpp:35-45 | no occurrence is earlier than the one found, and one is found when there is one |
| Text.CutAtFirst | src/utils/utils.cpp:35-45 | str_before and str_after give the two sides of a first occurrence |
| Text.CutsOf | src/utils/utils.cpp:35-53 | for any text looked for: str_has says whether it occurs, str_before and str_after leave what surrounds its first occurrence, and the whole text when there is none |
| Text.Encode | src/channel.h:302 | ENC leaves no slash |
| Text.EncIsReplaced | src/channel.h:302 | replacing "/" by "@@@" works character by character |
| Text.DecIsReplaced | src/utils/utils.cpp:17-24 | replacing "@@@" by "/" is one scan from the left |
| Text.EncRoundTrip | src/channel.h:302 | replacing "@@@" by "/" with str_replace undoes ENC exactly on names with neither "@@@" nor "@/" |
| Text.EncCollides | src/channel.h:302 | two different names around "@/" and "/@" have one encoding |
| Text.AtoiOfPrint | src/mesh.cpp:128-131 | atoi undoes printing an integer, negative ones included, whatever non-digit follows |
| Text.AtoiIsDecimal | src/mesh.cpp:128-131 | a further digit makes the number read ten times as much and that digit more; a sign negates or keeps it |
| Text.PrintedShort | src/mesh.cpp:168-170 | numbers are printed without leading zeros and with a sign only when negative |
| Description.TransportDescription.constructor | src/protocols/protocols.h:46-63 | the step-by-step constructor leaves the fields of the parsed description |
| Description.TransportDescription.Render | src/protocols/protocols.h:69-76 | the stream built field by field is the printed description, empty for an invalid one |
| Description.DescriptionRoundTrip | src/protocols/protocols.h:46-76 | parsing a printed description gives it back exactly when it is valid, its protocol lower-case without "://", its address free of ':' and '/', empty only for shm, and free of "in" and "out" when two-way |
| Description.ReparseStable | src/protocols/protocols.h:46-76 | any parsed text survives printing and parsing exactly when a two-way endpoint's address holds neither "in" nor "out" |
| Description.ProtocolLowered | src/protocols/protocols.h:48 | the protocol parsed holds no upper-case letter and differs from what was written only where there was one, by the same letter in lower case |
| Description.CaseOfProtocol | src/protocols/protocols.h:48 | descriptions whose protocols differ only in case parse alike, shared memory included |
| Description.PartsParsed | src/protocols/protocols.h:46-63 | a text put together from protocol, address, port and details gives these back: localhost for a missing address unless shm, 0 for a missing port, the direction from "in" before "out" in the details, or in the whole address when there are none |
| Description.PartsWritten | src/protocols/protocols.h:69-76 | how protocol, address, port and direction are written |
| Wire.Dispatch | src/signaling.cpp:22-39 | a line with a tag reaches that tag's handler and no other, with exactly the text behind the tag |
| Wire.WireRoundTrip | src/signaling.cpp:22-39 | a message printed and dispatched reaches its own handler with all its fields exactly when its name holds no '\|' and its ip no ':' |
| Wire.ShmLost | src/channel.h:201-230 | the SHM messages, sent without '=', never arrive as sent and are ignored unless the name starts with '=' |
| Wire.UnknownLines | src/signaling.cpp:22-39 | a line is ignored exactly when it is not CONNECTED and starts with none of the tags |
| Wire.EmptyStatementThrows | src/channel.cpp:80-104 | handling a line throws exactly when it is PUBLISH or UNPUBLISH with nothing behind it |
| Wire.WrittenAs | src/channel.h:119-249 | the text of every message, tag and separators included |
| Wire.PublishBack | src/channel.cpp:80-98 | name, type and address of a PUBLISH statement are recovered exactly when the name holds no '\|' and the ip no ':' |
| Wire.HeardAsSent | src/mesh.cpp:88 | over a socket whose chunks end at delimiters, any sequence of single messages and Host= tables calls the receiver's handlers with exactly the messages sent, in order |
| DirectoryWire.MessageSurvives | src/signaling.cpp:22-39 | a message of the directory, printed with the nodes' addresses and heard, is the same message, publisher included, exactly when what is printed is plain |
| DirectoryWire.EveryMessageSurvives | src/channel.h:116-126 | when no channel is named with a '\|' and no ip holds a ':', every message in flight after every run, losses included, is read as it was sent, and a request for SHM never is |
| Ports.PortDirectory.GetFreePort | src/protocols/tcp.h:51-70 | the unbounded loop ends, and the port it answers is recorded for the channel with every other record unchanged |
| Ports.FirstFit | src/protocols/tcp.h:56-63 | with legible names the answer is the least port from the first one on that is free or already the channel's |
| Ports.OwnerKept | src/protocols/tcp.h:51-70 | over any sequence of calls with legible names a recorded port never changes owner |
| Ports.CallChangesOwner | src/protocols/tcp.h:56-66 | for any table: a call takes a port from its owner exactly when the port it answers is recorded for an empty name, or for one that reads back as the caller's name without being it |
| Ports.OwnersSafeIffLegible | src/protocols/tcp.h:56-66 | no call whatever can take a port from its owner exactly when every recorded name reads back as it was written |
| Ports.Stable | src/protocols/tcp.h:51-70 | over any sequence of calls with legible names distinct channels never share a port, and the same channel with the same first port gets the same answer |
| Ports.RepeatIffLegible | src/protocols/tcp.h:56-63 | asking again gives the same port exactly when the name reads back from its file |
| Ports.LegibleReadsBack | src/protocols/tcp.h:60-61 | fgets returns the recorded name exactly when it is shorter than the buffer with no newline before its last character |

## Left out

- Sockets, name resolution, files, `mmap` and semaphores of the operating system: FIFO queues, a byte array, two counters and a map of files stand for them; which port binds, which events happen and what a user calls are free parameters.
- Connection loss in the mesh, and so liveness across reconnection: a mesh run has no loss other than a refused dial and its repetition; replacing a still-ready socket would skip CONNECTED (`src/mesh.cpp:190-195`).
- Peers whose reported port is not the one they were dialled on, equal ids, and `localhost` beside another name for one machine: `Config.Valid` and the event guards exclude them.
- `disconnect`, `close` and `on_close` of subscriptions: they delete subscriptions from the list being walked (`src/channel.h:207-209`, `src/channel.cpp:238-257`); how many remain is left open, and the theorems hold for every number. Entries that a subscription list keeps are counted, not told apart.
- Dereferencing an unknown publisher: an offer for a channel whose publisher was withdrawn uses a null host in the source (`src/channel.h:195-198`); the model does nothing there.
- OfferExchange.NoSubscriptionForgotten: is about publishers reached by TCP; a publisher on the same host is asked over SHM, and that request is never heard (`Wire.ShmLost`).
- OfferOrigin.SubscriptionsReachPublisher: is about channels with one publishing node; after a change of publisher a late offer of the old one is accepted (`src/channel.cpp:126-132`).
- DirectoryAgreement.PeersAgree: is about channels that one node publishes; two publishers overwrite each other in arrival order.
- `Host::is_local` is a fixed set of hosts for each node; the addresses it compares do not change the exchange.
- SHM transport negotiation, subscriptors and the data path of channels: no further protocol.
- Semaphore teardown, clients started before the server, and direct edits of the segment: the handoff is proved from the state the server leaves.
- Several objects sharing one segment in `ShmSegment`: the class runs one call at a time, the interleaving is in `ShmSpec`.
- Threads inside one process: each handler of the mesh and the directory is one step, as under its lock; callbacks replaced while running are not modelled.
- `atoi` beyond the range of an int, and locales: numbers are those the senders print.
- `ALLOCATE=` messages: no handler accepts them (`src/channel.h:144`, `src/signaling.cpp:22-39`).
- `str_ends_with`, `str_between`: easy and unused by the cores.
- Ports.OwnerKept: is about tables and calls with legible names; `Ports.CallChangesOwner` says when another table loses an owner.
- `src/protocols/rtc.cpp`, `src/protocols/pipe.cpp`, `src/utils/websocket.cpp`, `src/shm.cpp`, `src/bin`: stubs, input/output or user interface.
- `dump_*`, debug output, argument parsing and signal handlers: no property of interest.
