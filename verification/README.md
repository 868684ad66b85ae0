# A verified model of a chunk-swapping peer and its network simulator

The program is a BitTorrent-like peer over UDP. A user asks for a list of chunks, each known by its
SHA-1 hash. The peer floods WHOHAS packets, peers that have chunks answer with IHAVE, and the chunks are
fetched one after another from each such peer, 512 packets of 1024 bytes per chunk, by a go-back-N
transport with a congestion window. A router simulator can carry the packets. This project models
the parts where correctness rests on several functions at once, and proves properties of all inputs, all
runs or all reachable states.

| modules | what they model |
|---|---|
| Control | the sender: window, threshold, duplicate ACKs and timeouts of `control.c` and `connection.c` |
| Transfer | one chunk from one provider to one receiver over links that lose, duplicate and reorder |
| ChunkSequence, ListProgress | many chunks from one provider over FIFO links that lose: no contamination, and the whole list |
| Discovery, Exchange | WHOHAS and IHAVE packets of `job.c`, and discovery from end to end |
| Download, Ownership, Scheduler, Messages, Completion, Peer | the download scheduler of `peer.c` and `connection.c`: handlers, the ownership invariant, runs, what is said on the network, what can be completed, and the object with its loops |
| Words, Blocks, Fips180, Sha1 | `sha.c` against sections 4.1.1, 5.1.1, 5.2.1, 5.3.1 and 6.1.2 of FIPS 180-4 |
| Graphs, Routing, Forwarding, Simulator | `hupsim.pl`: routing tables, forwarding, queues |
| InputBuffer | line framing of `input_buffer.c` |
| Options | a value that may be missing |

Code that changes state in place is a class here, whose methods are proved against a specification
function; the theorems are about that function and its runs. Clock comparisons, the success of file
writes and the network's choices are parameters, so every theorem holds for all of them. Times enter only
as "has elapsed". Labels that a model adds to packets or to a state (the number of a chunk in
ChunkSequence, the hops of a packet and the logs in Forwarding) decide nothing in the modelled code.

Five results say that the code falls short, each with the exact condition or a concrete run:

- One lost ACK can stall a session until the crash timeout, because old DATA packets are not acknowledged
  again (`Transfer.FirstAckLostStalls`). With nothing under way, a session can complete iff the receiver is
  short of what a timeout makes the sender repeat or of the end of a window with room left
  (`Transfer.CompletesIffCanMove`).
- After a receiver crash timeout a block of the abandoned chunk can be stored in the next one
  (`ChunkSequence.CancelContaminates`), iff a packet 1 or a GET is under way or the provider has no accepted
  ACK yet (`ChunkSequence.ContaminatesIffRisky`); the hash check then rejects that chunk.
- The GET of a later chunk of a list is never repeated, so losing it stalls the list
  (`ListProgress.LostGetIsRepeatedIffPending`).
- A job that lists one hash twice never finishes; all others can (`Completion.CompletableIffDistinct`).
- A line and a later newline in the buffer that do not fit together make `memmove` leave that newline
  behind, and old bytes are handed out as input (`InputBuffer.StaleBytesBecomeALine`); exactly when is in
  `InputBuffer.FaithfulIffGapsFit`.

RFC 5681 is not followed where the code is not: a loss in slow start lowers only the threshold, and a
loss always resends the whole window.

`dafny verify dfyconfig.toml` checks the whole project.

## Model

| member | source | states |
|---|---|---|
| ChunkSequence.NoContamination | peer.c:132-180 | Over two FIFO links that may lose packets, where the provider serves the chunk named in the GET it received: in every run whose receiver crash timeouts, if any, come when nothing is risky, every chunk that left the list complete was assembled byte for byte from its own blocks, and a DATA packet that would be accepted next carries the next block of the chunk now at the head, although DATA carries no chunk identity |
| ChunkSequence.RunInvariant | connection.c:229-298 | The invariant behind it, in all such runs: the provider's chunk is that of the GET it accepted, order of the numbered packets on both links, and a session without an accepted ACK has sent only packet 1 while one with an accepted ACK never sends it again (from window <= acked + 1), so no stale packet 1 follows the last packet of its chunk |
| ChunkSequence.StepKeepsInvariant | peer.c:109-196 | Every event of the two-peer system except a receiver crash timeout keeps that invariant |
| ChunkSequence.NoCancelIsHarmless | peer.c:109-196 | A run without receiver crash timeouts is such a run |
| ChunkSequence.CancelKeeps | control.c:120-128 | So does a receiver crash timeout when no packet 1 and no GET is under way and the provider is not without an accepted ACK |
| ChunkSequence.ContaminatesIffRisky | connection.c:97-108 | The exact condition for a receiver crash timeout after any such run: some continuation stores a foreign block if and only if a packet 1 or a GET is under way or the provider's session has no accepted ACK (given chunks that differ in their first block) |
| ChunkSequence.AcceptedIsNextBlock | peer.c:163-178 | A packet with the expected number belongs to the current chunk and is its next block |
| ChunkSequence.ProviderFinishIsSound | peer.c:188-195 | A provider connection that ends by its last ACK ends after the receiver has assembled the chunk it serves, although ACKs of other chunks share the link |
| ChunkSequence.CancelContaminates | control.c:120-128 | The shortest such run: six events after which block 1 of a chunk that was given up is stored as block 1 of another |
| ListProgress.NothingIsForgotten | connection.c:363-383 | In every run without receiver crash timeouts, the chunks that have headed the list followed by those still behind it are, in order, all that the IHAVE packets picked; without a connection none is left behind |
| ListProgress.ListCompletes | connection.c:363-383 | Every non-empty list of chunks has a run that downloads it to its end: all chunks in order, byte for byte, and then no connection |
| ListProgress.UnexpectedDataIsIgnored | peer.c:149-162 | In every harmless run a DATA packet that is not the expected one changes nothing but a repeated ACK for a later one |
| ListProgress.LostGetIsRepeatedIffPending | control.c:101-119 | Finding, with its exact condition: when a GET is lost, some run still gets the chunk, and then the whole list, if and only if the connection has not yet received any DATA; the GET of a later chunk is never repeated |
| Transfer.EveryRunIsSafe | peer.c:132-196 | With loss, duplication and reordering in both directions: the buffer is always the first 1024*R bytes of the provider's chunk, no ACK in flight exceeds R, acked <= R <= 512, and the provider finishes by ACK only after the receiver holds the whole chunk |
| Transfer.StepIsSafe | connection.c:229-298 | Each of the six kinds of event keeps that |
| Transfer.RoundResult | control.c:46-78 | From any safe state: what one loss-free round that starts with the timeout does, exactly: it ends with acked = R = sent = min(acked + window, 512) if R is short of that, and otherwise moves nothing |
| Transfer.RoundsComplete | connection.c:229-248 | Progress with a measure: a receiver short of what a timeout makes the sender repeat gets its chunk within as many loss-free rounds as packets are missing |
| Transfer.MovableCompletes | peer.c:266-274 | A session whose window has room left for a packet the receiver lacks completes as well: the room is filled without a timeout, then rounds follow |
| Transfer.CompletesIffCanMove | peer.c:149-178 | The exact condition over all runs: with nothing under way, some run completes the chunk if and only if the receiver still listens and either R is short of what a timeout makes the sender repeat, or the window is not full and R is short of its end |
| Transfer.StallIsForever | peer.c:152-155 | Otherwise, in every run, with timeouts, losses and repetitions in any order, neither acked nor R ever changes again |
| Transfer.FirstAckLostStalls | control.c:57-58 | Losing the very first ACK is enough: no run from there completes the chunk or moves either end |
| Control.RunInvariant | connection.c:229-248 | In every run of a new connection 0 <= acked <= sent <= 512, sent - acked <= window, 1 <= window <= acked + 1, ssthresh >= 2, congestion avoidance iff window >= ssthresh, fewer than 3 duplicates, sent <= 2 acked + 1, and the branch "window size is smaller" is dead |
| Control.StepKeepsInv | control.c:46-99 | Every event keeps the invariant and never lowers acked |
| Control.WindowHistory | control.c:160-190 | After any run the window is exactly 1 plus the accepted ACKs that were allowed to widen it since the last collapse, hence at most 1 plus the progress since |
| Control.LossEffect | control.c:150-190 | A detected loss resends the whole window; it collapses the window to 1 only in congestion avoidance, and in slow start never raises ssthresh |
| Control.TwoLossesCollapse | control.c:60-99 | Two detected losses without an accepted ACK in between leave window 1 in slow start, whatever else happens in between |
| Control.EveryThirdDuplicateRetransmits | control.c:63-69 | k copies of the current ACK cause exactly (duplicates + k) / 3 retransmissions |
| Control.AcceptedAckIsFirstCopy | control.c:71-76 | An accepted ACK counts as the first copy of itself: k further copies cause exactly (1 + k) / 3 retransmissions |
| Control.DuplicatesCountCopies | control.c:62-76 | Over every run of a new connection the count is the number of copies of the current ACK, the accepted one included, modulo 3, and a copy is taken for a loss exactly at every third; timeouts, sends and ACKs outside the window leave it alone |
| Control.ProviderConnection.ControlByAck | control.c:46-78 | The new state of the connection is the model's ACK step |
| Control.ProviderConnection.ControlByTimeout | control.c:80-99 | Same for the timeouts; tells when the connection is given up |
| Control.ProviderConnection.SendDataPacket | connection.c:229-254 | Same for sending: window full, impossible window, chunk all sent, or the next packet number |
| Control.ProviderConnection.ConnectionScaleUp | control.c:140-182 | Window growth by status; in congestion avoidance only when an RTT has elapsed |
| Control.ProviderConnection.ConnectionScaleDown | control.c:150-191 | ssthresh halved but at least 2; window collapse only in congestion avoidance |
| Control.ProviderConnection.ResetSenderBuffer | control.c:134-138 | sent falls back to acked and the duplicates are forgotten |
| Control.ProviderConnection.ChangeConnectionStatus | control.c:193-201 | The status follows from window and ssthresh |
| Scheduler.OwnershipInvariant | connection.c:40-132 | After every sequence of user GETs, IHAVE, DATA, timeouts and job checks: each pending or downloading chunk is held once, live lists are non-empty with exactly their head downloading, only a downloading chunk has received anything, one connection per peer and at most the maximum, and the finished chunks are those written to the output file, once each, with their own hash |
| Scheduler.OneHolder | connection.c:304-383 | For one chunk: it is pending or downloading exactly when some list holds it, at one place of one list, and it is downloading there exactly at the head |
| Ownership.IhaveOnConnectionKeeps | peer.c:76-82 | An IHAVE on an existing connection keeps the invariant |
| Ownership.ConnectKeeps | connection.c:114-172 | A new connection, started at its first chunk, keeps it |
| Ownership.DataKeeps | peer.c:132-180 | A DATA packet keeps it: stored, completed, rejected by its hash, or failed to be written |
| Ownership.CancelKeeps | connection.c:97-108 | Giving up a connection returns exactly its chunks and keeps it |
| Ownership.ResendKeeps | control.c:111-118 | Repeating a GET changes no chunk and no list |
| Ownership.TimeoutsKeep | peer.c:347-353 | So does a sweep over all connections |
| Scheduler.FinishIsSound | peer.c:276-290 | The job is declared got if and only if every chunk is finished, although the code looks only for live connections and chunks without a provider |
| Scheduler.GotMeansSaved | connection.c:326-350 | Then the writes to the output file are each chunk exactly once and nothing else, each with data of its wanted hash |
| Scheduler.FinishedOnlyByHash | connection.c:304-358 | A chunk becomes finished only by a DATA packet that fills its buffer with 524288 bytes whose SHA-1 is the wanted hash and that were written |
| Scheduler.FinishedForever | connection.c:97-108 | A finished chunk never changes again in any run of its job |
| Scheduler.ShadowedNeverFound | job.c:299-312 | Finding: a chunk whose hash an earlier chunk of the job has as well is never found in any run, and the job is never declared got |
| Completion.CompletableIffDistinct | peer.c:276-290 | With room for one connection, a job whose chunks all exist somewhere can be declared got in some run if and only if it lists no hash twice |
| Completion.JobForgetsTheLast | peer.c:206-217 | The job that a user GET installs depends on nothing of an earlier job: every listed chunk is without a provider |
| Completion.DistinctCompletes | connection.c:363-383 | The run: one peer offers every chunk, its blocks arrive in order, and the writes are all chunks in job order |
| Download.DataIsReceive | connection.c:271-298 | Short of a chunk's last block, the DATA handler of the scheduler is the receiver of the single-session model, with the same counters, data and ACK |
| Messages.DataMessages | peer.c:145-178 | Every DATA packet from a connected peer, the last block of a chunk included: first the reply of the single-session receiver, then a GET if and only if the connection has moved on to another chunk, with that chunk's hash; the head moves exactly when the chunk is full, and an unexpected packet changes nothing |
| Messages.DataTouchesItsListOnly | peer.c:163-178 | An accepted packet touches only chunks of its sender's list and that connection, which is marked as having received data |
| Messages.IhaveMessages | peer.c:76-104 | An IHAVE is answered by a GET if and only if it has made a connection, for the first chunk on its list |
| Messages.SweepIsExact | control.c:101-130 | One sweep of timeouts: the connections left are exactly those whose peers are not taken for crashed, in order and unchanged; exactly the chunks of the others are without a provider with nothing received; and exactly the live connections whose first GET is overdue repeat it |
| Peer.Downloader.OnIhave | peer.c:71-108 | The state and the GET sent are those of the scheduler for the hashes read from the packet |
| Peer.Downloader.AddIhave | connection.c:40-85 | The loop over the listed hashes claims exactly the chunks without a provider |
| Peer.Downloader.SearchConnection | connection.c:12-22 | The first connection with the peer, or none |
| Peer.Downloader.StartConnection | connection.c:161-172 | The head is marked downloading and its hash is asked for |
| Peer.Downloader.OnData | peer.c:132-180 | ACKs, buffer, connection list, output and next GET are those of the scheduler; the ownership invariant is kept |
| Peer.ThreeStepsAccept | peer.c:172-178 | save_data_packet, save_chunk and reset_receiver_connection in turn are one step of the scheduler |
| Peer.Downloader.SaveDataPacket | connection.c:271-298 | One block is appended and counted |
| Peer.Downloader.SaveWholeChunk | connection.c:304-358 | A full buffer is hashed by the verified SHA-1, kept or thrown away, and the counters are cleared |
| Peer.Downloader.ResetConnection | connection.c:363-383 | The list moves to its next chunk, or the connection is dropped |
| Peer.Downloader.CancelConnection | connection.c:97-108 | The loop gives every chunk of the list back |
| Peer.Downloader.OnTimeouts | control.c:101-130 | The sweep of receivers_timeout with each connection's own clock reading; keeps the invariant |
| Peer.Downloader.FinishJob | peer.c:276-290 | Returns true exactly when the job was live and all its chunks are finished |
| Peer.Downloader.StartJob | peer.c:206-217 | A new job with no chunk found yet |
| Discovery.PackingIsExact | job.c:143-197 | The hash lists of the WHOHAS packets, one after another, are precisely the hashes without a provider in job order, none lost or repeated |
| Discovery.AllWhohasPackets | job.c:143-197 | ceil(n/74) packets; packet k is well formed, at most 1500 bytes with a length field that fits its count of 1 to 74, and carries share k of the list |
| Discovery.FillPayload | job.c:175-191 | One payload: the count byte and the next n hashes from the shared cursor, which moves behind them |
| Discovery.NextNotFound | job.c:180-190 | The innermost loop: the next chunk without a provider |
| Discovery.GetNotFoundChunkNumber | job.c:132-141 | The number of hashes without a provider |
| Discovery.IhavePacket | job.c:203-248 | The answer lists exactly the requested hashes that the peer has, in the order asked; none if there are none |
| Discovery.CopyOwned | job.c:217-234 | The copying loop, with the signed count byte clipped at 74 |
| Discovery.CountOfAnyByte | job.c:217-221 | Any count byte: above 74 it is cut off, negative as a signed byte it lists nothing |
| Discovery.SearchChunk | job.c:299-326 | The first chunk with a hash, or none |
| Discovery.AnswersGatherOwned | job.c:203-248 | All answers together list what the peer has of all packets together |
| Exchange.DiscoveryComposes | connection.c:40-85 | WHOHAS packets, one peer's answers and their reception, end to end: for a job of distinct hashes, a peer without a connection and a free slot, the peer's new connection lists exactly the chunks without a provider that the peer has, in job order, and nothing else changes |
| Exchange.DiscoveryExtends | peer.c:79-82 | The same for a peer that already has a connection: those chunks are appended to its list |
| Exchange.WantedIsExact | job.c:299-326 | What "exactly" and "in job order" mean |
| Sha1.StreamingIsSha1 | sha.c:453-558 | For every message below 2^64 bits and every way of cutting it into SHA1Update calls, SHA1Final yields the hash of section 6.1.2 of FIPS 180-4 over the padded message of section 5.1.1 |
| Sha1.AnySplitIsOneAbsorb | sha.c:453-524 | Any sequence of updates is one update with all the data, from any context |
| Sha1.FinishAbsorbsPadding | sha.c:529-545 | SHA1Final absorbs exactly the padding of the message length before padding |
| Blocks.BytesToPad | sha.c:536-538 | The padding length is in 1 to 64 and always lands on 56 modulo 64 |
| Blocks.BytesToPadIsPadZeros | sha.c:536-538 | It is one marker byte plus the zeros of section 5.1.1 |
| Blocks.PadZerosIsSmallest | sha.c:536-538 | which are the fewest possible |
| Sha1.Sha1Context.constructor | sha.c:149-163 | A new context holds the initial hash value of section 5.3.1, no data and length 0 |
| Sha1.Sha1Context.Guts | sha.c:176-451 | One call replaces the hash words by those of section 6.1.2 for the block |
| Sha1.Sha1Context.ExpandSchedule | sha.c:184-200 | The loop with its four moving pointers computes the recursive message schedule |
| Sha1.Sha1Context.RunRounds | sha.c:214-225 | The rounds of the loop version end in the recursive definition of 80 rounds |
| Sha1.RoundStep | sha.c:49-69 | One DO_ROUND with the rewritten functions is one round of section 6.1.2 |
| Words.RewrittenChoice | sha.c:52 | F_0_19 is Ch of section 4.1.1 on all 32-bit words |
| Words.RewrittenMajority | sha.c:54 | F_40_59 is Maj of section 4.1.1 on all 32-bit words |
| Words.SwappedLoadIsBigEndian | sha.c:76-82 | BYTESWAP of a little-endian load is the big-endian word |
| Words.SwappedStore64IsBigEndian | sha.c:84-91 | BYTESWAP64 of the bit count stored little-endian is the big-endian length field |
| Sha1.Sha1Context.Update | sha.c:502-522 | The default loop leaves the context of one unbuffered absorb, for every context and every input |
| Sha1.Sha1Context.FastUpdate | sha.c:461-500 | The SHA1_FAST_COPY version, which compresses from the input itself, leaves the same: hash words, total, buffer length and live buffer bytes |
| Sha1.Sha1Context.Final | sha.c:529-558 | The 20 bytes are the digest of the finished context |
| Sha1.Sha1Context.WriteDigest | sha.c:547-554 | The five words are written big-endian |
| Sha1.ShaHash | chunk.c:33-49 | shahash writes the FIPS hash of its input |
| Routing.Router.CreateTable | hupsim.pl:226-288 | In every connected graph of at most 65535 routers, whatever earlier runs left in the shared fields: distance is the unit-weight distance from this router to each, and every table entry is a neighbour on a shortest path |
| Routing.BuildAll | hupsim.pl:386-389 | After all routers have run over the same fields, every router's table is right |
| Routing.LabelsAreDistances | hupsim.pl:247-274 | For every graph, connected or not: a final label is the distance, and a label of 65535 means that there is no shorter walk |
| Routing.ReachableIsNear | hupsim.pl:73 | 65535 is out of reach of real distances with at most that many routers |
| Routing.RelaxKeeps | hupsim.pl:261-272 | Relaxing one edge keeps the invariant of the search: labels explained by done predecessors, done edges tight, labels visited in order |
| Routing.VisitEnds | hupsim.pl:273 | Marking the visited router done keeps it |
| Routing.StepBack | hupsim.pl:279-282 | Each step of the predecessor walk is defined, lowers the label by one and stays on a shortest path, so the walk ends |
| Routing.FirstHopIsGood | hupsim.pl:279-286 | The router before the source on that walk is a good first hop, so neither die statement is reached |
| Routing.Router.Prepare | hupsim.pl:236-245 | The base state, with stale predecessors left in place, satisfies the search invariant |
| Routing.Router.VisitNext | hupsim.pl:252-259 | The first of the unvisited routers with the smallest label |
| Routing.Router.Relax | hupsim.pl:261-272 | One edge, on the shared fields |
| Routing.Router.Visit | hupsim.pl:261-273 | All edges of one router, on the shared fields |
| Routing.Router.Explore | hupsim.pl:247-274 | As many visits as routers leave every router done |
| Routing.Router.FirstHop | hupsim.pl:278-284 | The predecessor loop terminates with a good hop |
| Routing.Router.FillTable | hupsim.pl:275-287 | One entry per other router |
| Forwarding.ForwardingIsLoopFree | hupsim.pl:184-189 | Following the tables reaches the destination after exactly the distance in hops, not earlier, and visits no router twice |
| Forwarding.PathDescends | hupsim.pl:172-181 | Each hop lowers the distance to the destination by exactly one |
| Forwarding.NetworkIsSound | hupsim.pl:150-224 | In every run of insertions and link crossings in any order: accepted packets are exactly the delivered, the dropped and the queued ones; each delivery is at the right router after exactly the distance in hops; each drop is short of it; no queue exceeds its maximum and its size is the sum of its packet lengths |
| Forwarding.RunKeepsInv | hupsim.pl:191-224 | The invariant behind it, with the place of every packet under way |
| Forwarding.ReceiveAccounts | hupsim.pl:150-182 | One recv puts the packet in exactly one place |
| Forwarding.NetworkDrains | hupsim.pl:200-213 | Once insertions stop, the crossings of any run are bounded: each one uses up part of a finite effort |
| Forwarding.CrossingLowersEffort | hupsim.pl:208-213 | because no packet makes as many hops as there are routers |
| Forwarding.QueueIsFifo | hupsim.pl:47-69 | Over every history of one queue: what was taken, then what waits, is what was admitted, in order; refusals are counted |
| Forwarding.NewQueueAdmitsMax | hupsim.pl:12-28 | The configured maximum, 10 if it is 0, is the number of packets that a new queue admits before it drops |
| Forwarding.ArrivedIsBoundFor | hupsim.pl:157-160 | A packet is delivered at the router that the node file names for the address and port in its header, with 0.0.0.0 standing for 127.0.0.1 |
| Simulator.NSQueue.constructor | hupsim.pl:12-28 | An empty queue; a maximum of 0 means 10 |
| Simulator.NSQueue.EnQ | hupsim.pl:47-69 | Drop at the maximum, else append and add the length |
| Simulator.NSQueue.TakeFirst | hupsim.pl:209-210 | The head leaves with its length |
| Simulator.Routers.Recv | hupsim.pl:150-182 | One packet at one router: the new state of all queues and counters is the network's, with ignored packets of unknown destination |
| Simulator.Routers.Insert | hupsim.pl:424-431 | A packet from the socket enters at the router named by its first word, if there is one |
| Simulator.Routers.DrainQueue | hupsim.pl:208-214 | The inner loop of run on one queue |
| Simulator.Routers.RunRouter | hupsim.pl:191-224 | All queues of one router, with an arbitrary number of due packets for each |
| Simulator.TurnTakesDue | hupsim.pl:208-214 | After a router's turn each of its queues has given up exactly its due packets, or all if there are fewer, from the front; nothing comes back to a queue of the same router |
| Simulator.RouterTurnIsRun | hupsim.pl:191-224 | A turn is this run of the network: queue by queue in order, as many crossings as packets are due there; so all that holds in every run holds of the simulator |
| Simulator.MakeRoutes | hupsim.pl:366-383 | One queue for each direction of each line, empty and with its own maximum |
| Simulator.Start | hupsim.pl:366-389 | The routers with the tables they have built over a connected topology are a fresh, correctly wired network, so the theorems about runs apply to the simulator as started |
| InputBuffer.StreamIsSplitIntoLines | input_buffer.c:22-54 | From any buffer with no newline behind its unfinished line, and however admissible input is cut into reads: the lines handed out are the lines of the whole stream in order, and the buffer ends in that condition with the rest of the stream. Admissible: NUL-free, room for each read, and every line fits with every later newline in the buffer (line length + position < 8191) |
| InputBuffer.StreamIsFaithfulIffAdmissible | input_buffer.c:22-54 | That is exact: for NUL-free input that there is room for, each call hands out its lines and exposes no line nobody typed to a later read if and only if the stream is admissible |
| InputBuffer.FaithfulIffGapsFit | input_buffer.c:45-52 | The exact condition for one call, on the lines handed out by it and by any plain read after it, whatever bytes lie behind the unfinished line |
| InputBuffer.HalfFullStream | input_buffer.c:22-54 | In particular for NUL-free input with never more than 4096 bytes in the buffer |
| InputBuffer.GivesUpIffLineTooLong | input_buffer.c:33-36 | After an admissible stream the next call exits if and only if the unfinished line has 8190 bytes or more |
| InputBuffer.ShiftLeaves | input_buffer.c:46-52 | memmove keeps the bytes after the line, and leaves a newline behind them if and only if there was one or the line and a later newline do not fit together |
| InputBuffer.StaleBytesBecomeALine | input_buffer.c:46-52 | Counterexample beyond it: a concrete input of two reads after which old bytes are handed out as a line that was never typed |
| InputBuffer.DrainIsSplit | input_buffer.c:45-53 | If all gaps fit, one call's loop hands out exactly the lines of the buffered bytes and leaves no newline behind the rest |
| InputBuffer.DrainSpoils | input_buffer.c:45-53 | If not, it hands out other lines or leaves a newline behind the rest |
| InputBuffer.NulHidesLines | input_buffer.c:45 | A NUL before the first newline hides all later lines for good |
| InputBuffer.UserIobuf.ProcessUserInput | input_buffer.c:22-54 | The new buffer, the new count and the lines handed out are those of the specification, exit included |
| InputBuffer.UserIobuf.HandleLines | input_buffer.c:45-53 | The strchr loop |
| InputBuffer.UserIobuf.MemMoveToFront | input_buffer.c:50-51 | memmove in place |

## Left out

- Sockets, `select`, the spiffy header and its name lookups, logging and printing: sends append to a channel or are returned, and senders are known peers.
- Wall-clock values and RTT averaging (`set_RTT`, `get_time_diff`): every comparison with a timeout is a free boolean.
- Unconditional liveness of a session: false, see `Transfer.FirstAckLostStalls`; what can complete is stated exactly for a session with nothing under way.
- ChunkSequence.NoContamination: excludes receiver crash timeouts at risky moments, because it is false with them, exactly as `ChunkSequence.ContaminatesIffRisky` says.
- Transfer.EveryRunIsSafe: takes DATA payloads of 1024 bytes, the only size a provider sends; packets of other sizes, and those that would overrun the chunk buffer, are not modelled.
- Ownership.DataKeeps: the same restriction to DATA payloads of 1024 bytes.
- Peer.Downloader.OnData: the same restriction to DATA payloads of 1024 bytes.
- Peer.Downloader.SaveDataPacket: the same restriction to DATA payloads of 1024 bytes.
- Peer.Downloader.StartJob: a user GET while connections are live is not modelled, because the source leaves those lists pointing into the old job.
- Scheduler.OwnershipInvariant: in its runs such a GET changes nothing.
- Peer.Downloader.OnTimeouts: cancelling and unlinking a connection is one step on values, so use of freed list nodes is not modelled.
- Chunks are referred to by their index in the job and connections by their place in a list, not by pointers; providers are told apart by number.
- Output file placement: the file is opened for appending, so the seek has no effect on where data goes; a write only succeeds or fails.
- Provider connections of several receivers at once (`add_provider_connection`, the maximum of provider connections): each is a sender of its own, and acceptance of a GET is a free boolean.
- Loading a chunk from the master data file (`load_chunk`): the provider's data is a parameter.
- `flood_whohas` as an event: it changes no state; its packets and their answers are in Exchange.
- Header fields other than type, sequence numbers and length, their byte order, and hex conversion.
- Payload bytes behind the last hash of a packet are arbitrary; `char` is taken as signed.
- `burnStack` and other wiping of memory in `sha.c`, the unrolled variants of its round loop, and big-endian or run-time endianness: the model is the little-endian build.
- Sha1.Sha1Context.Guts: models the version with one loop for all groups of rounds; the partial unrollings compute the same rounds in the same order.
- Routing.Router.CreateTable: needs a connected topology, as the predecessor walk of an unreachable router need not end; each neighbour's queue is represented by the neighbour's number.
- Simulator.Routers.Recv: every node of the node file is a router of the topology; for one that is not, the source dies when a packet for it arrives (hupsim.pl:179).
- Transmission times of queues (`rate`, `latency`): which packets are due is a free choice per queue and turn.
- The order in which the simulator runs its routers: the theorems hold for every order.
- Statistics counters reset by a signal (`bytesSent`, `dropped` per link) beyond the count of refusals per queue.
- Parsing of command lines, peer files, chunk files and topology files; `make_chunks`, `client.c`, `server.c` and debugging code.
- InputBuffer.UserIobuf.ProcessUserInput: a negative result of `read` is an empty read, as in the code; the callback is the list of lines it is called with.
