# The tunnel's multiplexed streams, registry and frontends, verified

A server accepts public connections and relays each of them, as a numbered stream over one
WebSocket, to an agent that connects it to a local service. This project models that relay
and proves what it promises.

**Streams.** `Endpoint` says what one end of a stream does with each event of its socket and
each frame: credit, coalesced acknowledgements, the two causes for pausing, both EOF flags,
the agent's dial with the frames queued meanwhile, and the request head held back for Host
rewriting. `EndpointProofs` sums every handler up in one relation. `Channel` composes a
server end, an agent end and the two FIFO directions between them into a state machine whose
actions are socket events, frame deliveries, drains, dials, congestion and aborts;
`ChannelTheorems` and `Pausing` prove what holds of every run. `EndpointLaws` says of each
effect, instead of each handler, exactly what brings it about; `Backpressure` keeps a ledger of
what a socket was seen to accept, and `ChannelHistories` tells whole runs by such observations:
what was read, what was granted for, and why each RESET was sent. `Mux` shares the FIFOs among
any number of streams and shows that each stream behaves as if it were alone, and
`MuxTheorems` says the theorems of a whole session. The classes `ServerStream.Stream`,
`ClientStream.ClientStream`, `ServerSession.AgentSession` and `ClientSession.Agent` update
their fields step by step as the TypeScript does, and each method is proved to do what
`Endpoint` or `Mux` says. `SessionRuns` drives a server session through any life it can have,
`AgentRuns` an agent through any number of sessions, and `JointRuns` one of each, joined by
their WebSocket, through any schedule, which is shown to be a run of `Mux`.
`PythonStream` has the two pump loops of the Python client, and
`HostHeader` the head rewriting of both clients.

**Tunnels.** `TunnelBooks` is the registry with the opening of a TCP tunnel split at its
await, `Ports` its round-robin search with the truncating remainder of JavaScript,
`TunnelTheorems` what holds over every interleaving, and `Registry.Registry` the maps updated
in place.

**Edges.** `HeadPeek` reads just enough of a public connection to find its Host, `Routing`
leads from there to the tunnel, `RequestLines` says both, and the rewriting of the Host line, of
a request put together from its lines, `Codec` has the stream frames on the wire, and `Heartbeat`
decides when a silent connection is given up.

A socket is its history: the bytes accepted from it, the bytes handed to it, whether it is
reading, whether a `drain` is due. What `write` answers, what the WebSocket has queued, and
whether a dial or a bind succeeds are parameters, so that the theorems hold whatever the
environment does. Sockets are half-open: their two directions end separately.

## What the code does otherwise than intended

Each of these is modelled as written, with the exact condition under which it does no harm.

- A stream that congestion alone had paused is not resumed when congestion ends, because
  `maybeResume` returns unless the stream was also paused for credit
  (`server/src/stream.ts:135`, `client-node/src/stream.ts:214`): `Pausing.CongestionOffIff`,
  and for whole runs `Pausing.AlwaysExactIff`; `Pausing.StuckForever`. With the guard dropped,
  `Pausing.TwoCausePausing` holds without condition.
- `openStream` ends with an unconditional `resume` (`server/src/agent.ts:105`), which undoes
  a pause for congestion or for a preread that used up the window: `Pausing.OpenResumeIff`.
  After such a preread the stream reads on without any credit: `Pausing.PrereadSafeIff`.
- The agent acknowledges the bytes of a head it still holds back as soon as they arrive
  (`client-node/src/stream.ts:156-159`, and `client/uptunnel/client.py:190-197`), where
  `docs/PROTOCOL.md` has it wait for the local socket: `ChannelTheorems.EarlyAck`. It is ahead
  of its socket exactly while it holds something back, and by less than the head buffer:
  `ChannelTheorems.EarlyAckIff` for the Node client and `PythonStream.Stream.EarlyAckIff` for
  the Python one.
- Bytes behind the head that came in the same frames as its end are searched for a Host line
  too, so that a head without one makes the result depend on the split:
  `HostHeader.ChunkingIndependentIff`; for a head beyond the limit,
  `HostHeader.LongHeadIndependentIff`.
- A bare CR starts a line for the Node client and none for the Python client
  (`HostHeader.ClientsDisagreeOnBareCR`); they agree on every target exactly when Python takes
  Node's Host line for a line: `HostHeader.ClientsAgreeIff`, and on every split,
  `PythonStream.ClientsAgreeOnStreamsIff`.
- Stream ids wrap around after `0xfffffffe` (`server/src/agent.ts:126`), where
  `docs/PROTOCOL.md` says that they are never reused: an id was used before exactly when the
  last of the id space was, `ServerSession.AgentSession.OpenStream`. The agent does not check
  an OPEN frame for an id that is still live: `ClientSession.Agent.OnStreamOpen`.
- A tunnel whose bind is pending when its session ends is registered when the bind succeeds
  (`TunnelTheorems.DisconnectIsFinalIff`), and then stays, since nobody is left to close it
  (`TunnelTheorems.StaysForGood`). The quota does not count such tunnels:
  `TunnelTheorems.OpenWithinQuotaIff`.
- The search for a port leaves the token's range, and misses free ports of it, when the hint
  lies more than one span below it and the range has more than one port:
  `Ports.ClaimInRangeIff`, `Ports.FailsOnlyWhenFullIff`.

## Model

| member | source | states |
|---|---|---|
| ChannelTheorems.PipeRefinement | server/src/stream.ts:58-104 | over every run of one stream, whatever the schedule, the sockets, aborts and congestion: what reached each socket is a prefix of what its partner read, preread first, and a half-close comes exactly behind the last byte |
| ChannelTheorems.RewrittenPipe | client-node/src/stream.ts:150-194 | with Host rewriting the local service gets the bytes taken so far with exactly the first Host line replaced, however the request was split |
| ChannelTheorems.UnfinishedHeadIsSent | client-node/src/stream.ts:182-193 | nothing of a held head reaches the socket before the half-close, and with it goes all of it, its Host line replaced; so does a head beyond the limit whose Host line ends within it |
| ChannelTheorems.CreditConserved | client-node/src/stream.ts:106-201 | while both ends live, credit, bytes in flight, queued bytes, unacknowledged bytes and grants in flight add up to the window, in both directions, after every step |
| ChannelTheorems.NoCreditStall | server/src/stream.ts:88-138 | every run of deliveries, drains and a successful dial is shorter than the work it starts with, and once nothing is owed a live stream has its whole window back, waits for no credit and has handed over every byte |
| ChannelTheorems.CanSettle | client-node/src/stream.ts:91-217 | from every reachable state the owed steps can be taken until nothing is owed |
| ChannelTheorems.SettledIff | server/src/stream.ts:88-138 | nothing is owed exactly when both queues are empty, no drain is due and the dial is over |
| ChannelTheorems.SettledStream | server/src/stream.ts:106-138 | a settled live stream has exactly the window as credit on both sides |
| ChannelTheorems.OwedStepWorks | client-node/src/stream.ts:91-201 | each delivery, drain or successful dial strictly decreases the weighted work left |
| ChannelTheorems.LateResetsAreHarmless | server/src/stream.ts:70-104 | over every run, whatever was aborted: an end that exchanged both EOFs has got and handed over everything, and a RESET that a late frame draws from it finds its peer finished |
| ChannelTheorems.GracefulClose | server/src/stream.ts:70-157 | in a run that aborts no live end, closing sockets of finished ends included, no RESET reaches a live end, and a finished end has got and delivered everything |
| ChannelTheorems.LateReset | server/src/agent.ts:153-162 | a RESET in front of its receiver, sent by an end that has both EOFs behind it, finds the receiver finished |
| ChannelTheorems.EarlyAckIff | client-node/src/stream.ts:150-175 | in every reachable state a live agent end has acknowledged at most what its socket got if and only if it holds no head back, and otherwise less than the head buffer more |
| ChannelTheorems.EarlyAck | client-node/src/stream.ts:156-159 | the first chunk of an incomplete head is acknowledged in full before a byte of it is written |
| ChannelHistories.GrantsAreBacked | server/src/stream.ts:88-118 | over every run an end has granted no more than its socket was seen to accept, by a write answered true, a drain or the half-close, or the head buffer keeps, and while it lives exactly that much; the server keeps nothing back, a rewriting agent less than the buffer takes |
| ChannelHistories.ReadIsOffered | server/src/stream.ts:58-75 | over every run an end has sent the preread, if any, and then exactly what its socket was read while the stream took it, and EOF exactly if the end was read |
| ChannelHistories.EveryResetHasItsCause | client-node/src/stream.ts:81-89 | over every run the RESETs an end sent, delivered or in flight, are as many as its aborts while live, the frames that found it finished, and the refusals of its OPEN: the close of a socket sends none |
| ChannelHistories.ResetsCounted | server/src/agent.ts:153-162 | the same count from any sound state on |
| ChannelTheorems.ResetQuiescence | client-node/src/agent.ts:299-308 | once both ends dropped a stream, delivering what is left terminates and leaves no frame of it |
| ChannelTheorems.ResetNotAnswered | server/src/agent.ts:155-161 | a RESET is never answered |
| ChannelTheorems.AbortsReachThePeer | server/src/stream.ts:142-151 | after every run of a stream an end that was aborted, or whose dial failed, finds its peer finished or has a RESET on its way to it |
| ChannelTheorems.OnlySilentCloseIsMissed | client-node/src/stream.ts:226-240 | once nothing is owed, a live end outlives its peer only if the peer's socket closed with no abort and without both EOFs |
| Channel.StepKeepsInv | server/src/stream.ts:58-157 | every action of a stream keeps order, losslessness, credit and both local invariants |
| Channel.RunKeepsInv | client-node/src/stream.ts:81-240 | so does every run |
| Channel.StartInv | server/src/agent.ts:84-109 | a stream just opened satisfies the invariant, whatever the preread and congestion |
| Channel.Deliver | server/src/agent.ts:153-180 | delivering the front frame of a direction keeps both directions and uses up work |
| EndpointProofs.HandleStep | client-node/src/stream.ts:81-240 | every socket event keeps an end sound and moves bytes, credit and flags as summed up |
| EndpointProofs.ReceiveStep | client-node/src/agent.ts:299-326 | so does every frame, live or not, and strictly less work is left |
| EndpointProofs.AttachStep | client-node/src/stream.ts:91-111 | the queued frames and a queued EOF go out in order when the dial succeeds, and nothing queued is lost |
| EndpointProofs.WriteLocalStep | client-node/src/stream.ts:150-161 | what the socket got stays the image of what was consumed, and unacknowledged bytes imply a due drain |
| EndpointProofs.TakeEofStep | client-node/src/stream.ts:182-193 | a head still held back goes out before the half-close, and everything is acknowledged |
| EndpointLaws.SentIs | server/src/stream.ts:49-53 | all that a step of a sound end sends: a RESET, one chunk, EOF, acknowledgements, or nothing, and when |
| EndpointLaws.ResetIff | server/src/stream.ts:143-157 | a RESET is sent exactly for an error or a failed dial of a live end, and for a frame that finds the end finished |
| EndpointLaws.DataIff | client-node/src/stream.ts:115-124 | a chunk read from the socket of a live end is sent as it is, and nothing else is |
| EndpointLaws.EofIff | client-node/src/stream.ts:126-131 | EOF is sent exactly when the socket of a live end ends for the first time |
| EndpointLaws.FinishedIff | server/src/stream.ts:70-104 | a stream becomes finished exactly by an abort of either side, the second EOF, or the close of its socket |
| EndpointLaws.DestroyedIff | client-node/src/stream.ts:91-95 | a socket is destroyed exactly by an abort of either side while the stream lives, or when a dial finds the stream finished |
| EndpointLaws.ConnectedIff | client-node/src/stream.ts:96-97 | an end is connected exactly by a dial that finds it live |
| EndpointLaws.HalfClosedIff | client-node/src/stream.ts:177-194 | a socket is half-closed exactly by the peer's EOF, at once or when the dial succeeds |
| EndpointLaws.PausedGloballyIff | server/src/stream.ts:126-131 | a live stream's congestion flag is what it was last told |
| EndpointLaws.WriteAcks | client-node/src/stream.ts:150-161 | a payload is acknowledged, with all that was owed, exactly if the socket took it or the head keeps all of it; otherwise a drain is due |
| EndpointLaws.RefusedWriteIsOwed | server/src/stream.ts:88-96 | a payload whose write is refused is not acknowledged until the drain |
| Backpressure.KeptStep | client-node/src/stream.ts:91-201 | every step keeps the ledger in step with the end |
| Mux.Projection | server/src/agent.ts:134-180 | each action of a session is one action of one stream's own channel, or one of each for congestion, and changes nothing else |
| Mux.NetStep | client-node/src/agent.ts:279-359 | every action of a session keeps the invariant of all its streams |
| Mux.EachStreamIsAlone | server/src/agent.ts:84-180 | however many streams are interleaved, each is in a state it reaches when running alone |
| MuxTheorems.SessionPipes | server/src/agent.ts:84-180 | after every run of a session each stream is a pair of byte pipes that starts with its preread, with its credit conserved |
| MuxTheorems.SessionResetsAreHarmless | client-node/src/agent.ts:299-326 | in every session, whatever is aborted in it: a stream end that exchanged both EOFs has got everything, and its late RESETs find the other end finished |
| MuxTheorems.SessionAbortsReachThePeer | server/src/agent.ts:153-180 | so in every session the abort of a stream has reached its other end or is on its way, whatever happens to its neighbours |
| MuxTheorems.SessionClosesGracefully | client-node/src/agent.ts:299-326 | no RESET reaches a live end of a stream that was not aborted itself, however many of its neighbours were |
| MuxTheorems.Isolation | server/src/agent.ts:153-180 | actions of other streams change neither a stream's ends nor its frames in flight |
| MuxTheorems.OwedStepOfOneStream | server/src/agent.ts:153-180 | an owed step uses up work of one stream and leaves all others as they were |
| MuxTheorems.SessionNeverStalls | server/src/agent.ts:134-180 | every run of owed steps of a session is bounded by the work of all its streams together |
| MuxTheorems.SessionCanSettle | client-node/src/agent.ts:279-326 | from every reachable state such a run leaves nothing in flight, no drain due and no dial out |
| MuxTheorems.EverySessionSettles | client-node/src/agent.ts:279-326 | after every run from an idle session owed steps, no more than its work, lead to a settled session, in which each stream has its window back and every byte handed over, or is over at both ends, or outlives only a silent close |
| MuxTheorems.SettledSession | server/src/stream.ts:106-138 | then every stream that lives at both ends has its whole window back and has handed over every byte |
| Pausing.FromTheOpening | server/src/stream.ts:58-68 | from either kind of opening on, over every order of events, a live socket reads only with credit and without congestion, and exactly then with the repaired guard, or as written without congestion |
| Pausing.ReadsOnlyWhenAllowed | server/src/stream.ts:58-68 | as written, over every order of events a live socket reads only with credit and without congestion |
| Pausing.TwoCausePausing | server/src/stream.ts:126-138 | it reads exactly then, with the repaired guard always, as written on runs without congestion |
| Pausing.AlwaysExactIff | server/src/stream.ts:126-138 | as written, a live socket reads exactly when it may throughout a run, congestion included, if and only if each end of congestion finds it without credit or paused for credit too |
| Pausing.CongestionOffIff | server/src/stream.ts:133-138 | as written, the end of congestion leaves it right if and only if it has no credit or was paused for credit too |
| Pausing.StuckForever | client-node/src/stream.ts:212-217 | a live stream paused by congestion alone never reads again |
| Pausing.CongestionEpisodeSticks | server/src/agent.ts:184-210 | one congestion episode does that to a fresh stream |
| Pausing.OpenResumeIff | server/src/agent.ts:103-105 | the final resume is right if and only if there is no congestion and the preread is below the window |
| Pausing.PrereadSafeIff | server/src/agent.ts:104-105 | a fresh stream is bounded by its credit if its preread is below the window, and otherwise reads any amount without a grant |
| Pausing.OvershootBound | server/src/stream.ts:58-84 | credit stays above minus one chunk, and unacknowledged bytes stay below the window plus one chunk |
| Pausing.GrantsFitTheField | server/src/protocol.ts:62-68 | so every coalesced grant fits the u32 field when that bound does |
| Pausing.FinishedForGood | server/src/stream.ts:143-157 | a finished end accepts and hands over nothing any more |
| Pausing.NoSocketIsForgotten | client-node/src/stream.ts:91-111 | over every run, the socket of a finished end was destroyed, half-closed both ways, closed of itself, or is not there yet, and one that a late dial brings is destroyed at once |
| Pausing.CongestionWhileReading | server/src/agent.ts:72-76 | congestion noticed inside `send` is the same as congestion noticed just before or after the handler |
| Pausing.CongestionWhileHandling | server/src/agent.ts:184-192 | the same for the other socket events |
| Pausing.CongestionWhileReceiving | server/src/agent.ts:184-192 | the same for frames |
| HostHeader.ChunkingIndependentIff | client-node/src/stream.ts:164-175 | for a head within the limit, every split reaches the local service as the same bytes if and only if no Host line starts behind the head unless one is before it |
| HostHeader.RewriteIgnoresChunking | client/uptunnel/client.py:199-207 | then the concatenated writes are the stream with exactly that one line replaced |
| HostHeader.RewriteTwice | client-node/src/stream.ts:244-249 | rewriting a rewritten head is rewriting the original: the new line is found where the old one was and ends where it should |
| HostHeader.FindHostIsFirst | client/uptunnel/client.py:66-72 | the line replaced is the first that starts with `Host:` in any letter case |
| HostHeader.LongHeadIndependentIff | client-node/src/stream.ts:164-175 | for a head beyond the limit the split does not matter if and only if the first Host line, if any, ends within the limit |
| HostHeader.ClientsAgreeIff | client/uptunnel/client.py:66-72 | both clients rewrite a head alike, whatever the target, if and only if the line Node replaces starts a line for Python, too, or there is none |
| HostHeader.ClientsAgree | client/uptunnel/client.py:66-72 | in particular without a bare CR |
| HostHeader.ClientsDisagreeOnBareCR | client-node/src/stream.ts:244-249 | a smallest head on which they do not |
| PythonStream.ClientsAgreeOnStreamsIff | client/uptunnel/client.py:172-207 | both clients hand over the same bytes for any target and any two splits of a stream if and only if the first Host line, if any, is in the head and a line for both |
| PythonStream.ClientsAgreeOnStreams | client/uptunnel/client.py:172-207 | in particular if the head has no bare CR |
| PythonStream.TakeOne | client/uptunnel/client.py:189-194 | one payload more is one more step of the head buffer |
| PythonStream.Stream.ToLocal | client/uptunnel/client.py:172-197 | however the local socket drains, the loop takes the items in order, writes exactly what the head buffer releases for them and at the end what it still held, acknowledges all bytes but those of a payload that has not drained, and stops exactly at a turn whose write does not go through; the socket is half-closed exactly when the loop has ended and the socket lets it |
| PythonStream.Stream.EarlyAckIff | client/uptunnel/client.py:189-207 | whatever was fed and however the socket drained, what was acknowledged exceeds what is not held back if and only if a head is held back; then it is all there was, less than the buffer takes, with nothing written |
| PythonStream.Stream.NothingIsLost | client/uptunnel/client.py:172-207 | once the end was taken the socket was written all that was fed, as it came or with its first Host line replaced: of a request over before its head is complete, of one whose head fits and has that line in it or none, and of a longer one with that line within the limit |
| PythonStream.Stream.TakeNext | client/uptunnel/client.py:174-197 | one turn waits exactly if what it wrote does not go through, and acknowledges a payload at once otherwise |
| PythonStream.Stream.Drained | client/uptunnel/client.py:182-197 | a drain acknowledges the payload it was waited for, or ends the loop behind a last head, half-closing the socket if that can be done |
| PythonStream.Stream.EndOfStream | client/uptunnel/client.py:175-188 | the end of the stream releases a head still held back and, once that has drained, half-closes the socket exactly if that can be done and does not fail |
| PythonStream.Stream.BufferHead | client/uptunnel/client.py:199-207 | the Python head buffer behaves as specified |
| PythonStream.Stream.OnRead | client/uptunnel/client.py:211-227 | a read does to credit, pause and EOF what it does at the other ends, and credit stays above -65536 |
| PythonStream.Stream.AddCredit | client/uptunnel/client.py:229-232 | a grant resumes the loop exactly when credit becomes positive |
| PythonStream.Stream.Wake | client/uptunnel/client.py:213-215 | a loop that wakes up has credit |
| ServerStream.Stream.OnSocketData | server/src/stream.ts:58-68 | sends the chunk, takes it from the credit, and pauses the socket when none is left |
| ServerStream.Stream.OnSocketEnd | server/src/stream.ts:70-75 | sends EOF once and finishes if the peer's EOF came already |
| ServerStream.Stream.WritePreread | server/src/stream.ts:81-84 | the preread bytes go out like any other |
| ServerStream.Stream.OnData | server/src/stream.ts:88-96 | writes the payload and acknowledges only if the socket took it |
| ServerStream.Stream.OnEof | server/src/stream.ts:98-104 | acknowledges the rest, half-closes, and finishes if both EOFs passed |
| ServerStream.Stream.OnAck | server/src/stream.ts:106-110 | adds the grant and maybe resumes |
| ServerStream.Stream.OnReset | server/src/stream.ts:112-114 | destroys the socket without a word to the peer |
| ServerStream.Stream.FlushAck | server/src/stream.ts:116-121 | all unacknowledged bytes in one grant, none when finished |
| ServerStream.Stream.OnDrain | server/src/stream.ts:51 | a drain flushes the acknowledgement |
| ServerStream.Stream.SetGlobalPause | server/src/stream.ts:126-131 | congestion on and off |
| ServerStream.Stream.MaybeResume | server/src/stream.ts:133-138 | resumes as written |
| ServerStream.Stream.Destroy | server/src/stream.ts:143-151 | aborts once, reports once, tells the peer unless it said so itself |
| ServerStream.Stream.Finish | server/src/stream.ts:153-157 | finishes and reports exactly once |
| ClientStream.ClientStream.DialFailed | client-node/src/stream.ts:81-89 | a failed dial resets the stream and reports it once, and does nothing to a finished one |
| ClientStream.ClientStream.Attach | client-node/src/stream.ts:91-111 | a successful dial writes the queue, takes a queued EOF, and honours congestion; a finished stream only destroys the socket |
| ClientStream.ClientStream.WriteFrames | client-node/src/stream.ts:106 | the loop over the queued frames writes them in order, with all their acknowledgements |
| ClientStream.ClientStream.OnLocalData | client-node/src/stream.ts:115-124 | as at the server |
| ClientStream.ClientStream.OnLocalEnd | client-node/src/stream.ts:126-131 | as at the server |
| ClientStream.ClientStream.OnAck | client-node/src/stream.ts:133-137 | as at the server |
| ClientStream.ClientStream.OnData | client-node/src/stream.ts:141-148 | queues before the dial succeeds, writes after |
| ClientStream.ClientStream.WriteLocal | client-node/src/stream.ts:150-161 | counts every byte received, writes what the head buffer releases, acknowledges as soon as it may |
| ClientStream.ClientStream.ConsumeHead | client-node/src/stream.ts:164-175 | holds back until the head is complete or the limit is reached, then releases all of it with the Host line replaced |
| ClientStream.ClientStream.OnEof | client-node/src/stream.ts:177-194 | notes an early EOF for the dial, else half-closes behind what was held back |
| ClientStream.ClientStream.FlushAck | client-node/src/stream.ts:196-201 | as at the server |
| ClientStream.ClientStream.SetGlobalPause | client-node/src/stream.ts:205-210 | congestion on and off, with or without a socket |
| ClientStream.ClientStream.MaybeResume | client-node/src/stream.ts:212-217 | resumes as written |
| ClientStream.ClientStream.Destroy | client-node/src/stream.ts:226-234 | aborts once, reports once, destroys an attached socket only |
| ClientStream.ClientStream.Finish | client-node/src/stream.ts:236-240 | finishes and reports exactly once |
| SessionRuns.Live | server/src/agent.ts:84-236 | over every life of a session, any schedule of connections, frames, socket events, polls and teardown, each tunnel's count is the number of its live streams, and zero once the session is gone; the ids given out are 1, 2, 3 and so on, none twice before the id space is used up; every live stream knows whether the session is congested |
| SessionRuns.Next | server/src/agent.ts:72-75 | one happening keeps all this, and a session that is gone, or whose WebSocket is not open, sends nothing |
| JointRuns.Drive | server/src/agent.ts:84-222 | over every schedule of connections, deliveries, socket events, polls and tunnel answers, what the two sessions do to their maps and queues is a run of the multiplexer from idle, so that the sockets of each connection got prefixes of what their partners read, half-closed only behind all of it |
| JointRuns.Next | client-node/src/agent.ts:279-388 | one happening keeps the two sessions joined, and does what it says: a frame that is there is delivered, an event of a live or finished socket raised, a connection accepted for its tunnel, congestion ended by the poll, each as that action of the multiplexer |
| AgentRuns.Live | client-node/src/agent.ts:237-408 | over every life of the agent, session after session, its map holds exactly the streams that have not finished, each knows whether the session is congested, and none outlives its session, until an OPEN names an id that is live |
| ServerSession.AgentSession.OpenConnsAreLive | server/src/agent.ts:98-119 | a tunnel's count is the number of live ids that were opened for it |
| ServerSession.AgentSession.OpenStream | server/src/agent.ts:84-109 | enters a fresh stream under a free id, books it for the tunnel and counts it there, sends OPEN and the preread in this order; the id is the next one, and was used before exactly when the id space was used up; it fails only with 1024 live streams |
| ServerSession.AgentSession.OnStreamFinished | server/src/agent.ts:111-121 | takes the stream out of both maps and its tunnel's count down by one, the clamp at zero never acting |
| ServerSession.AgentSession.AllocStreamId | server/src/agent.ts:123-130 | the first free id in cyclic order, within 1..0xfffffffe and not live; the ids wrap around exactly with the last one, it was used before exactly when they had, and until then it is the next one; with fewer than 1024 live streams it is always found |
| ServerSession.AgentSession.HandleFrame | server/src/agent.ts:153-176 | a frame of an unknown stream is answered with RESET, but a RESET is not; a known one handles its frame and nobody else notices, but for the congestion that what it sends may raise |
| ServerSession.AgentSession.HandleMessage | server/src/agent.ts:134-180 | the same for whatever can be decoded: requests about tunnels go to the registry and other control frames nowhere, and a stream frame of an unknown type, or a grant cut short, is ignored by a live stream and answered with RESET otherwise |
| ServerSession.UnknownFrameIs | server/src/agent.ts:153-179 | a stream frame of an unknown type does nothing to a live stream, and is to one that is over what any other frame is |
| ServerSession.AgentSession.OnSocketEvent | server/src/stream.ts:49-53 | a stream is in the map exactly until one of its events finishes it; late events of one whose id was given away again touch nothing |
| ServerSession.AgentSession.CheckCongestion | server/src/agent.ts:184-193 | pauses every stream once the limit is exceeded |
| ServerSession.AgentSession.PollCongestion | server/src/agent.ts:194-199 | releases them below half of it |
| ServerSession.AgentSession.PauseStreams | server/src/agent.ts:192 | the loop over the map tells every live stream, and finished ones would not care |
| ServerSession.AgentSession.Destroy | server/src/agent.ts:224-236 | tears down every stream without a word, its socket included, and leaves every tunnel with no open connection |
| ClientSession.Agent.RegisterTunnels | client-node/src/agent.ts:262-275 | every configured tunnel is pending under its index and asked for, in order |
| ClientSession.Agent.HandleFrame | client-node/src/agent.ts:295-388 | stream frames do to the map of streams, to the WebSocket and to congestion what the multiplexer says; streams of the past stay there |
| ClientSession.Agent.HandleMessage | client-node/src/agent.ts:279-347 | so do all messages of the server; answers to tunnel requests touch no stream, and a stream frame of an unknown type is ignored by a live stream and answered with RESET otherwise |
| ClientSession.Agent.OnStreamOpen | client-node/src/agent.ts:349-359 | an unknown tunnel is answered with RESET; a new stream keeps the agent's invariant if and only if its id was not live |
| ClientSession.Agent.ClashThenClose | client-node/src/agent.ts:370-373 | otherwise the end of the old stream takes the new one out of the map |
| ClientSession.Agent.OnStreamEvent | client-node/src/stream.ts:61-111 | late dials and closes of a previous session's streams never touch the map, a stream or the WebSocket of the new session |
| ClientSession.Agent.LateEvent | client-node/src/agent.ts:349-408 | teardown, a new session, an OPEN of the same id, then any event of the old stream: the new one is in the map as OPEN left it, and nothing was sent |
| ClientSession.Agent.CheckCongestion | client-node/src/agent.ts:377-383 | pauses every stream once the limit is exceeded |
| ClientSession.Agent.PollCongestion | client-node/src/agent.ts:385-388 | releases them below half of it, or without a WebSocket |
| ClientSession.Agent.TeardownSession | client-node/src/agent.ts:401-408 | every stream ever opened is finished, and the socket of each that was live and connected destroyed; nothing is sent, and the agent forgets the session |
| TunnelBooks.BooksAgree | server/src/registry.ts:94-214 | under every interleaving of opens, bind results, closes and disconnects, `bySubdomain` is exactly the registered http tunnels, `byPort` exactly the registered tcp tunnels and those with a bind pending, `byId` the disjoint union of what the sessions own |
| TunnelBooks.StepKeeps | server/src/registry.ts:94-214 | each single step does |
| TunnelBooks.CloseOneMore | server/src/registry.ts:196-214 | closing a session's tunnels one by one strikes off exactly those |
| TunnelBooks.CloseIsWithout | server/src/registry.ts:196-210 | closing a tunnel removes it, and only it, from all four books |
| TunnelTheorems.DisconnectIsFinalIff | server/src/registry.ts:139-148 | after a disconnect the session owns nothing for good if and only if none of its binds was pending |
| TunnelTheorems.StaysForGood | server/src/registry.ts:139-148 | a registered tunnel survives every run without its own close or a disconnect of its session |
| TunnelTheorems.OpenWithinQuotaIff | server/src/registry.ts:95-98 | an accepted request stays within the quota, pending binds included, if and only if those leave room |
| TunnelTheorems.QuotaHolds | server/src/registry.ts:95-98 | the quota holds on every run in which no session asks while a bind of its own is pending |
| TunnelTheorems.QuotaOvershoot | server/src/registry.ts:140 | two requests in a row overshoot a quota of one |
| TunnelTheorems.OpenHttpIff | server/src/registry.ts:94-134 | a request for a subdomain is opened exactly if there is quota left, the token has no patterns or one that is `*`, the label, or a beginning of it and an asterisk, and the label is free; each refusal exactly for the first of these that fails |
| TunnelTheorems.OpenTcpIff | server/src/registry.ts:167-183 | a request for a port is bound exactly if there is quota left, the port is the server's and the token's, and it is free; each refusal exactly for the first of these that fails |
| TunnelTheorems.MatchesIff | server/src/config.ts:182-190 | what one pattern matches |
| TunnelTheorems.ServedIsEntitled | server/src/registry.ts:114-135 | after every run each served subdomain is one its owner's token may claim, and each port the server's to give |
| TunnelTheorems.AutomaticPort | server/src/registry.ts:167-194 | an automatically chosen port is free and in the server's range; with the hint at most one span below the token's range, or a single port in it, it is one the token may take, and none is found if and only if all of those are taken |
| TunnelTheorems.OnePlaceEach | server/src/registry.ts:114-135 | no two tunnels share a subdomain or a port |
| TunnelTheorems.CloseUndoesOpen | server/src/registry.ts:196-210 | closing undoes opening |
| TunnelTheorems.FailedBindUndoesOpen | server/src/registry.ts:141-144 | a failed bind gives the port back and leaves only the hint changed |
| Ports.ClaimIsFree | server/src/registry.ts:185-192 | the port found is free and the server's, and the hint stays in the server's range |
| Ports.ClaimIsExhaustive | server/src/registry.ts:185-193 | the search fails if and only if the whole range is taken, for a hint at most one span below it or a single port |
| Ports.ClaimInRangeIff | server/src/registry.ts:187 | exactly when a claim can never leave the token's range, under the truncating remainder |
| Ports.FailsOnlyWhenFullIff | server/src/registry.ts:185-193 | exactly when the search never fails with a port of the range still free, whatever is taken |
| Ports.MissesFreePort | server/src/registry.ts:187-193 | a smallest case in which it does |
| Ports.RoundRobin | server/src/registry.ts:185-192 | the port claimed last comes again only when every other port of the range is taken |
| Registry.Registry.Claim | server/src/registry.ts:167-194 | the loop finds the first free candidate, or checks the port asked for |
| Registry.Registry.Open | server/src/registry.ts:94-140 | claims the place and, for http, registers the tunnel |
| Registry.Registry.Resume | server/src/registry.ts:140-148 | the rest of `open` after its await |
| Registry.Registry.Close | server/src/registry.ts:196-210 | removes a registered tunnel from all maps, and does nothing to another |
| Registry.Registry.CloseAllFor | server/src/registry.ts:212-214 | the loop leaves the session owning nothing, pending binds untouched |
| Registry.Registry.LookupHttp | server/src/registry.ts:46-48 | finds the registered tunnel of a subdomain, if there is one |
| Registry.ParseRequest | server/src/registry.ts:54-92 | a request is accepted if and only if its target is a port and it asks for a label that is not reserved, or for a port number or none; a reserved label is refused as such |
| Registry.AskedIs | server/src/registry.ts:71-73 | a label is asked for in any letter case and with any blanks around it |
| Names.LabelIsPlain | server/src/registry.ts:13 | a label is in lower case and has no dot, colon or bracket |
| Names.LabelIff | server/src/registry.ts:13 | a label has 1 to 63 characters, small letters, digits and hyphens, and no hyphen at either end |
| Names.InAnyCase | server/src/http-frontend.ts:90 | a Latin-1 text is lowered to another exactly if they differ in capitals at most, and the other has none |
| Routing.PublishedAddressRoutesBack | server/src/http-frontend.ts:84-117 | a request for a tunnel's public host, in any letter case, with or without a port, routes to that tunnel, for a colon-free domain |
| Routing.PublicHostRoutesBackIff | server/src/registry.ts:216-218 | the published host routes back if and only if the domain is in lower case and colon-free |
| Routing.RoutedIsPublished | server/src/http-frontend.ts:90-107 | a Host that is routed is, without port and in lower case, the public host of the tunnel it leads to |
| Routing.EveryTunnelIsReachable | server/src/http-frontend.ts:84-117 | so it is after every run of the registry |
| Routing.RequestReachesItsTunnel | server/src/http-frontend.ts:45-75 | however a request is split, if the first of its header lines named Host has the address of a tunnel for its value, in any letter case, with or without a port, the frontend hands the whole request to that tunnel, the bytes read ahead first |
| Routing.VerdictIff | server/src/http-frontend.ts:84-117 | no Host is a bad request, a single label in front of the domain leads to its tunnel or is a bad gateway, everything else is not found |
| RequestLines.HostFoundIff | server/src/http-frontend.ts:137-147 | on the bytes of a request: its Host is the value of the first header line whose name is `host` in any letter case, blanks around either aside; the request line is none of them, and without such a line there is none |
| RequestLines.HeadEndsThere | server/src/http-frontend.ts:48-58 | the head of a request ends behind its last header line |
| RequestLines.RewriteReplacesTheLine | client-node/src/stream.ts:244-249 | with either client the first line of a head that begins with `Host:`, in any letter case, becomes `Host: ` and the target, and everything else stays |
| Names.StripOnePort | server/src/http-frontend.ts:149-156 | stripping removes exactly one port |
| Names.StripBehindBracket | server/src/http-frontend.ts:149-153 | an IPv6 literal keeps its brackets and loses what is behind them |
| HeadPeek.PeekIgnoresChunkingIff | server/src/http-frontend.ts:45-58 | every split of a request finds the same Host, and none is answered with 431, if and only if the limit covers the head but for its last byte |
| HeadPeek.PeekIsLossless | server/src/http-frontend.ts:60-75 | the bytes read ahead followed by those left in the socket are the whole stream |
| HeadPeek.LinesJoin | server/src/http-frontend.ts:137-139 | splitting the head into lines loses nothing |
| HeadPeek.LinesAreLines | server/src/http-frontend.ts:137-139 | no line holds a line end |
| HeadPeek.FirstHostIs | server/src/http-frontend.ts:139-146 | the Host taken is that of the first line named Host, and there is none only if no line is |
| HeadPeek.Connection.OnData | server/src/http-frontend.ts:45-58 | settles at most once, on all that was read so far |
| HeadPeek.Connection.Settle | server/src/http-frontend.ts:60-68 | nothing settles twice |
| Codec.RoundTrip | server/src/protocol.ts:76-99 | every frame that any of the programs writes is read back as what was meant |
| Codec.DecodedIsEncoded | client/uptunnel/protocol.py:69-92 | whatever is read as a stream frame is what the encoders write for it |
| Codec.EncodeIsInjective | client/uptunnel/protocol.py:49-66 | two frames never look the same |
| Codec.OnTheWire | server/src/protocol.ts:12-24 | every stream frame field by field: its type number, the stream id with the most significant byte first, and what the type carries |
| Codec.MeaningIff | server/src/agent.ts:164-179 | a stream frame is understood exactly if its type is one of the five and a grant has its count |
| Codec.ControlIff | server/src/protocol.ts:76-92 | a frame is a control frame exactly if its type is below 0x20, and its body comes through as it is |
| Codec.ControlRoundTrip | server/src/protocol.ts:29-35 | the six control frames are read back as what they are |
| Codec.EncodeStreamData | server/src/protocol.ts:46-52 | the buffer filled by index is the concatenation the Python client builds |
| Codec.EncodeStreamJson | server/src/protocol.ts:37-44 | the same for frames with a JSON tail |
| Codec.EncodeControl | server/src/protocol.ts:29-35 | the same for control frames |
| Codec.EncodeStreamOnly | server/src/protocol.ts:55-60 | the same for EOF |
| Codec.EncodeStreamAck | server/src/protocol.ts:62-68 | the same for grants |
| Heartbeat.TerminatedIff | server/src/control.ts:204-234 | over every interleaving of ticks and inbound events, a session is terminated if and only if some tick found it silent for `heartbeatMisses` ticks before it was closed |
| Heartbeat.TerminatesOnFirstDueTick | server/src/control.ts:209-222 | and on exactly the first such tick |
| Heartbeat.HeardOftenEnough | server/src/control.ts:120-137 | an agent heard once in every run of that many ticks is never dropped |
| Heartbeat.Liveness.OnTick | server/src/control.ts:204-234 | a tick terminates exactly when it is due, and pings otherwise |
| Heartbeat.Liveness.OnInbound | server/src/control.ts:120-137 | anything inbound resets the count |

## Left out

- Real sockets, `ws`, TLS, DNS, timers and the event loop: sockets are values with their whole traffic as history, and the environment is nondeterministic.
- Node closes a socket whose other direction ended unless it was created half-open; the streams here assume half-open sockets.
- A WebSocket that is no longer OPEN: the sessions drop what they would send, as the code does; the queues of `Channel` and `Mux` keep all that is sent, and so describe a WebSocket while it is open.
- Congestion that `send` notices in the middle of a handler is applied when the handler is done; the lemmas about congestion in `Pausing` say that the streams cannot tell.
- Two streams of one id after the server's id space wrapped around: the theorems about sessions and `JointRuns` give every stream its own id, as the server does until the first wrap.
- The byte counters of tunnels, the connection labels, logs and health records.
- JSON: metadata and control bodies are records or opaque bytes, and `Number` and `String` coercions happened before; a control frame decodes to its undecoded body.
- Routing: a configured domain with upper-case letters beyond Latin-1, which no Host header can hold.
- Registry.Registry.Open: sessions' tunnel maps are kept in the registry, by session, and the random id is a parameter that is assumed unused.
- A rewrite target with `$` (Node) or a backslash (Python), which the replacement of the regular expression engines would interpret.
- The Python client's `finish`, its cancellation of the pumps when a read or a drain fails, a dial that ends after it, and its agent: the Node client has the life cycle.
- The handshake timers, reconnecting with backoff, and the agents' own pings.
- Tokens' comparison, the admin server, configuration files, HTML error pages, LAN addresses, deployment.
