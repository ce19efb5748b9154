# Verified models of a datagram file transfer and an on-demand routing protocol

This project models, in Dafny, the logic of three pieces of C code and proves what they keep
over every run.

**The file transfer** (`udpserv.c`, `udpcli.c`) moves a file over UDP. The server's child process
is a sliding-window sender: it cuts the file into 491-byte payloads, keeps unacknowledged segments
in a linked list, resends the first of them on a timeout, estimates round-trip times, backs off and
gives up after twelve consecutive timeouts, and runs a Reno-like congestion window. The client's
receive thread sends requests that carry an ACK number and the free room in its list, and inserts
what arrives into a sorted linked list. A consumer thread prints and unlinks the part of the list
that continues what was printed.

**On-demand route discovery** (`odr_chechung.c`) floods a route request (RREQ), remembers the
highest broadcast id per pair of source and destination, learns the way back from each request, and
relays a route reply (RREP) along it.

**Interface choice** (`udpcli.c`) compares addresses bit by bit and keeps the interface with the
longest prefix that covers its mask.

## Layout

| files | content |
|---|---|
| `Segments`, `Codec` | the segment record, cutting the file, what is printed, the 512-byte wire format |
| `Congestion`, `Timer`, `Arithmetic` | `get_cwnd` and the timeout reset; estimator, Karn's rule, back-off |
| `Windows` | both linked lists: operations on contents, and the pointer-walking code that refines them |
| `Transfer` | the transfer as one transition system of sender, receive thread, consumer and two channels |
| `TransferSafety`, `TransferRace`, `TransferWindow`, `TransferFifo` | what holds in every run |
| `TransferSender` | how much each request makes the sender send; its congestion and timer variables along a run |
| `TransferLife`, `TransferProgress`, `TransferClose`, `TransferOutcome` | no stuck states, up to both programs having finished, with exact conditions |
| `SenderProgram`, `ClientProgram` | the two programs' loops on their mutable variables, refining the steps of `Transfer` |
| `Interfaces` | the prefix and mask loops and the selection loop |
| `OdrNode`, `OdrNet` | one node's handlers as functions and as a class; a network of nodes over any topology |
| `OdrTables` | when one node replaces a route, passes a request on, answers it or stays silent |
| `OdrFlood`, `OdrTermination`, `OdrHops` | floods happen once per node and die out; hop counts are real |
| `OdrDiscovery`, `OdrCleanRun`, `OdrReply`, `OdrRoute` | the correctness of an undisturbed discovery, forced over any tables or from unknown ends, and exactly when it succeeds |
| `OdrSilence` | a connected network in which a forced discovery fails |

Segments travel on the transfer's channels as values; `TransferSafety.MessagesFitTheWire` and the
codec's round trips justify that. `Transfer.Config` has two switches. `fifoRequests` makes requests
arrive in order; data segments may always be reordered. `atomicCheck` makes the client's test of a
segment number (`udpcli.c:791`) and the insert under the mutex (`udpcli.c:793-836`) one step. Only
`TransferFifo` needs `fifoRequests`; the progress results hold for every setting and say exactly
which states the unlocked test has spoiled. A pop of the consumer is two steps, because the receive
thread reads `last_seg_acked` and `num_seg_in_buf` without the mutex and can see the first updated
and the second not yet.

An undisturbed discovery (`OdrDiscovery.Ready`) starts with nothing in flight and with an id that is
new to every node; it is forced and finds any tables whatever, or unforced and finds no route to
either end. It is delivered in time (`OdrRoute.InTime`) if every frame is handled within the stale
time from its start.

A loss-free continuation is one in which nothing is lost, dropped or duplicated and the timer fires
only when nothing is in flight (`TransferLife.Calm`). A sender is alive (`TransferLife.Alive`) while
it can afford one more timeout, or a request is in flight, or what is in flight is enough to make
the client send one.

## Where the code differs from what it documents

- The wire flags for probes and for the last segment of a round exist, but the send loop leaves at
  `udpserv.c:808` before either can be set, so the sender never emits them. A timeout that resends
  the window's first segment, or a blank one, plays the probe's part. The client's tests of the
  flags are modelled.
- `cwnd` doubles per new ACK in slow start and grows by one per ACK afterwards; it does not follow
  section 3.1 of RFC 5681. The RTO is clamped to 1 to 3 seconds.
- The client tests a segment's number before it takes the mutex. If the consumer prints that number
  in between, the segment is stored behind the consumer, which then never prints again.
  `TransferRace.RaceStrandsTransfer` says exactly when that can happen, and
  `TransferOutcome.NoStuckState` from which states it has.
- The consumer prints a payload with `%.*s`, so output stops at a NUL byte of each payload. The
  printed output equals the file exactly when the file has no NUL byte.
- `checkAddressNotEmpty` parses as a test of each byte's lowest bit, so an address counts as empty
  when all its bytes are even.
- The TIME_WAIT encoder writes one header byte less than the others.
- A relay's two tests of its route to the destination (`odr_chechung.c:767-773`) leave out the second
  in which the route's time stamp plus the stale time equals the clock. A request that arrives then is
  marked as seen and neither passed on nor answered, forced or not. `OdrRoute.SuccessIsOpen` says
  exactly when that can cost a discovery its route, and `OdrSilence.SecondOfSilence` is a case.
- An RREP that is taken records the asker's broadcast id in the slot for the replying node's own ids
  (`odr_chechung.c:861`). A later discovery by that node is a new one to everybody only where its id
  is above those; `OdrDiscovery.Ready` asks for that.

## Model

| member | source | states |
|---|---|---|
| `TransferOutcome.NoStuckState` | TCP-like-protocal-usingUDPsocket/code/udpserv.c:534-956 | For every order of delivery: a reachable unfinished state with fewer than 11 consecutive timeouts is alive; a live state has a finite loss-free continuation that prints exactly one more segment and stays live unless the unlocked number test has doomed it, and then no run prints anything; any other state prints one more if and only if that segment is at hand or is what the last timeout resends; with the test inside the mutex, or a one-segment file, no state is doomed |
| `TransferOutcome.EverythingCanBeDelivered` | TCP-like-protocal-usingUDPsocket/code/udpcli.c:611-881 | From any reachable state a loss-free continuation prints the whole file if and only if no stale segment stands before its end and the sender is alive or every missing segment is at hand or resent; the measure is last segment minus last_seg_acked |
| `TransferOutcome.PrintsExactly` | TCP-like-protocal-usingUDPsocket/code/udpcli.c:1205-1226 | The same, if and only if, for every number up to the last segment |
| `TransferOutcome.BothSidesCanFinish` | TCP-like-protocal-usingUDPsocket/code/udpcli.c:901-998 | From any reachable state, the exact condition under which a loss-free continuation ends with everything printed and the sender knowing it, lost completion messages, clients that have left TIME_WAIT and senders at their last timeout included |
| `TransferClose.Wake` | TCP-like-protocal-usingUDPsocket/code/udpcli.c:904-910 | A client blocked after printing everything gets a segment to react to, if need be from a timeout |
| `TransferClose.Close` | TCP-like-protocal-usingUDPsocket/code/udpcli.c:901-998 | With everything printed and the sender alive, the completion gets through from wherever the client is short of having left |
| `TransferProgress.OneMore` | TCP-like-protocal-usingUDPsocket/code/udpcli.c:1205-1226 | One more segment is printed from every state that is alive or has that segment to be had, whatever the order of delivery; life and supply are kept |
| `TransferProgress.AbsorbOne` | TCP-like-protocal-usingUDPsocket/code/udpcli.c:700-853 | The client takes the oldest segment in flight: it is stored if needed, and a resent or last segment always provokes a new request |
| `TransferProgress.DrainServer` | TCP-like-protocal-usingUDPsocket/code/udpserv.c:700-955 | Handling every pending request clears the timeout counter and leaves the needed segment in flight or at the front of the window |
| `TransferProgress.Poke` | TCP-like-protocal-usingUDPsocket/code/udpserv.c:615-699 | A timeout with nothing in flight makes the client store the needed segment or ask for it with room to spare |
| `TransferLife.StepKeeps` | TCP-like-protocal-usingUDPsocket/code/udpcli.c:686-853 | No calm step of the client, and no served request, ends the life of the sender or loses a segment that is to be had |
| `TransferLife.ReceiveAlive` | TCP-like-protocal-usingUDPsocket/code/udpcli.c:698-853 | Each segment the client takes brings its next request closer, and a resent or last one provokes it |
| `TransferLife.NeverPrinted` | TCP-like-protocal-usingUDPsocket/code/udpserv.c:536-540 | With no request to come before the sender gives up, a number that is neither at hand nor resent is never printed |
| `TransferLife.WantsNeverDone` | TCP-like-protocal-usingUDPsocket/code/udpserv.c:536-540 | With no request to come and a number not at hand, the sender gives up before it learns of the end |
| `TransferLife.DyingNeverDone` | TCP-like-protocal-usingUDPsocket/code/udpserv.c:536-540 | The same for a blocked client with nothing in flight |
| `TransferSafety.PrefixSafety` | TCP-like-protocal-usingUDPsocket/code/udpcli.c:1205-1226 | Under any loss, duplication and reordering, printed is segments 1..last_seg_acked of the file, each once and in order; the completed output equals the file if and only if the file has no NUL byte |
| `TransferSafety.FlowControl` | TCP-like-protocal-usingUDPsocket/code/udpserv.c:797-814 | Everything in flight or in the send window is numbered at most last_seg_acked + max_window_size, one less once a stale segment has cost a place; both counters equal their list lengths, the client's one too many inside a pop; the receive list is strictly sorted inside that interval but for one stale head, which the test inside the mutex excludes |
| `TransferSafety.NeverDiscarded` | TCP-like-protocal-usingUDPsocket/code/udpcli.c:791-836 | In every run, stale heads included, a segment that passed the number test and is not in the list finds room, and the insert adds exactly it |
| `TransferSafety.RoomFor` | TCP-like-protocal-usingUDPsocket/code/udpcli.c:617-618 | Pigeonhole: if a number the client allows is missing from the list, the list is not full |
| `TransferSafety.EofAgreement` | TCP-like-protocal-usingUDPsocket/code/udpcli.c:839-843 | No request without the complete flag asks past the last segment, so the sender never reads outside the file; the sender sees the flag only after every segment was printed |
| `TransferSafety.FillerNeverAccepted` | TCP-like-protocal-usingUDPsocket/code/udpserv.c:633-639 | In any run, a segment that is not a slice of the file is never stored: with an empty window the resent number is one already printed |
| `TransferSafety.MessagesFitTheWire` | TCP-like-protocal-usingUDPsocket/code/unpifiplus.h:13-15 | Every message of every run is representable in the wire format and survives encoding and decoding |
| `TransferSafety.TimeWaitRepliesUnderstood` | TCP-like-protocal-usingUDPsocket/code/udpcli.c:911-994 | A completion sent from TIME_WAIT through the 511-byte encoder, whatever the last byte of its datagram, makes the sender do exactly what the message itself would |
| `TransferSafety.StepSafe` | TCP-like-protocal-usingUDPsocket/code/udpcli.c:611-881 | Every step of every thread and of the network keeps the joint invariant of sender, client and channels, and last_seg_acked never decreases |
| `TransferSafety.BurstSafe` | TCP-like-protocal-usingUDPsocket/code/udpserv.c:797-953 | The send loop stays inside the file and under the limit and counts what it stores |
| `TransferSafety.BurstGrowth` | TCP-like-protocal-usingUDPsocket/code/udpserv.c:807-918 | The send loop never shrinks the window and grows it by at most its quota |
| `TransferSafety.PopSafe` | TCP-like-protocal-usingUDPsocket/code/udpcli.c:1208-1222 | Printing the head extends the file prefix by exactly the next slice and keeps the client invariant |
| `TransferSender.RequestSends` | TCP-like-protocal-usingUDPsocket/code/udpserv.c:779-953 | For every sender whose counter is its window length within maxBufferSize and every request for a segment of the file: the datagrams sent are the slices from the requested number on; they are no more than rwnd, cwnd and the space left after pruning, and stop short of the last segment only where one of these is used up; the window is what pruning kept plus the sent segments it did not hold |
| `TransferSender.ServedRequest` | TCP-like-protocal-usingUDPsocket/code/udpserv.c:797-814 | In every reachable state a served request sends exactly min(rwnd, cwnd, free space, what is left of the file) segments, with cwnd at least 1 |
| `TransferSender.LoopSends` | TCP-like-protocal-usingUDPsocket/code/udpserv.c:807-953 | The send loop sends min(quota, rest of the file) consecutive slices and never reads outside the file |
| `TransferSender.MachinesAlongRun` | TCP-like-protocal-usingUDPsocket/code/udpserv.c:534-956 | Along every run the congestion variables are the congestion machine run on the ACKs and timeouts heard, and the timer variables are the timer run on the samples and timeouts heard, up to the completing request |
| `TransferSender.SenderInEveryRun` | TCP-like-protocal-usingUDPsocket/code/udpserv.c:536-626 | Hence for every sender of every run: a sound congestion window, an RTO that follows the estimate, an estimate that tracks RFC 6298, a wait of 1 to 3 s, and an abort exactly after twelve timeouts in a row |
| `TransferSender.BlankResend` | TCP-like-protocal-usingUDPsocket/code/udpserv.c:633-639 | In every run a timeout with an empty window sends a blank segment marked as resent and numbered one less than the last request asked for |
| `TransferRace.RaceStrandsTransfer` | TCP-like-protocal-usingUDPsocket/code/udpcli.c:791-797 | A transfer can be stranded before its end if and only if the number test is outside the mutex and the file has two segments or more |
| `TransferRace.Race` | TCP-like-protocal-usingUDPsocket/code/udpcli.c:791-836 | The concrete run that strands every such transfer |
| `TransferRace.DoomedForever` | TCP-like-protocal-usingUDPsocket/code/udpcli.c:791-836 | If the list is stranded, or a number already printed waits for the mutex and nothing can be popped, no run prints anything more |
| `TransferRace.BlockedForever` | TCP-like-protocal-usingUDPsocket/code/udpcli.c:791-836 | If what can be popped before a stale segment is stored does not reach number m, no run prints number m |
| `TransferRace.NeverBlocked` | TCP-like-protocal-usingUDPsocket/code/udpcli.c:791-797 | With the test inside the mutex, or a one-segment file, no reachable unfinished state has a stale segment at hand or at the head of its list |
| `TransferWindow.ResendIsNeeded` | TCP-like-protocal-usingUDPsocket/code/udpserv.c:633-639 | In every run, reordering included, a timeout resends nothing past the segment the client needs next |
| `TransferWindow.StepGapless` | TCP-like-protocal-usingUDPsocket/code/udpserv.c:779-953 | Every step, late requests included, keeps every number between last_seg_acked and a number of the send window standing before it |
| `TransferWindow.FrontAfterAsk` | TCP-like-protocal-usingUDPsocket/code/udpserv.c:779-918 | After a request for the next segment, a non-empty send window starts with that segment |
| `TransferRace.StrandedForever` | TCP-like-protocal-usingUDPsocket/code/udpcli.c:1205-1226 | Once the list starts with a number already passed, no run prints anything more |
| `TransferFifo.SendWindowShape` | TCP-like-protocal-usingUDPsocket/code/udpserv.c:904-918 | With in-order requests the send window is a consecutive run of file slices from the last ACK received, within maxBufferSize, and a timeout resends exactly the segment that ACK asked for |
| `TransferFifo.StepOrdered` | TCP-like-protocal-usingUDPsocket/code/udpserv.c:779-801 | Every step keeps the run shape and the ascending order of requests in flight |
| `TransferFifo.BurstKeepsRun` | TCP-like-protocal-usingUDPsocket/code/udpserv.c:807-953 | The send loop extends a consecutive run and never leaves a gap |
| `SenderProgram.SenderChild.constructor` | TCP-like-protocal-usingUDPsocket/code/udpserv.c:505-533 | The child starts in the initial state of the transition system, timer armed from the 0 sample |
| `SenderProgram.SenderChild.TimerExpired` | TCP-like-protocal-usingUDPsocket/code/udpserv.c:615-699 | The timeout branch on the real variables equals the timeout step, including which segment is resent and the abort |
| `SenderProgram.SenderChild.Completed` | TCP-like-protocal-usingUDPsocket/code/udpserv.c:773-777 | A completion request ends the loop without sending anything |
| `SenderProgram.SenderChild.Continue` | TCP-like-protocal-usingUDPsocket/code/udpserv.c:704-955 | The request branch equals the serve step: new state and exactly the segments appended to the socket |
| `SenderProgram.SenderChild.NoteReply` | TCP-like-protocal-usingUDPsocket/code/udpserv.c:704-780 | Timer and congestion variables after a reply |
| `SenderProgram.AnswerRequest` | TCP-like-protocal-usingUDPsocket/code/udpserv.c:779-814 | Prune, then send min(rwnd, cwnd, free space) segments |
| `SenderProgram.SendBurst` | TCP-like-protocal-usingUDPsocket/code/udpserv.c:807-953 | The send loop over the linked window equals the recursive burst: window, counter, last number, datagrams sent, reads outside the file |
| `SenderProgram.SendOne` | TCP-like-protocal-usingUDPsocket/code/udpserv.c:807-946 | One turn of the loop leaves the rest of the burst unchanged |
| `SenderProgram.StoreNext` | TCP-like-protocal-usingUDPsocket/code/udpserv.c:839-918 | The segment cut for a number is the data segment of the file, stored unless its number is already there |
| `ClientProgram.ClientThreads.constructor` | TCP-like-protocal-usingUDPsocket/code/udpcli.c:592-609 | The client starts in the initial state of the transition system |
| `ClientProgram.ClientThreads.NextRequest` | TCP-like-protocal-usingUDPsocket/code/udpcli.c:617-624 | The request carries last_seg_acked + 1 and the free room, or the complete flag exactly when everything is printed |
| `ClientProgram.ClientThreads.StoreSegment` | TCP-like-protocal-usingUDPsocket/code/udpcli.c:798-827 | The guarded insert equals the store step |
| `ClientProgram.ClientThreads.TestSegmentFlags` | TCP-like-protocal-usingUDPsocket/code/udpcli.c:839-852 | The end-of-file, resent and last-in-round tests in their order |
| `ClientProgram.ClientThreads.Accept` | TCP-like-protocal-usingUDPsocket/code/udpcli.c:777-853 | Handling one received segment equals the composed steps, error reply and probe exits included |
| `ClientProgram.ClientThreads.PrintFirst` | TCP-like-protocal-usingUDPsocket/code/udpcli.c:1208-1222 | Unlink, print and advance the ACK |
| `ClientProgram.ClientThreads.Drain` | TCP-like-protocal-usingUDPsocket/code/udpcli.c:1205-1226 | The consumer loop pops until the list no longer continues the prefix |
| `ClientProgram.HandledIsRun` | TCP-like-protocal-usingUDPsocket/code/udpcli.c:777-853 | What the receive thread does with a segment is a run of the transition system; inside a pop the insert waits for the lock |
| `ClientProgram.PopAllCorrect` | TCP-like-protocal-usingUDPsocket/code/udpcli.c:1205-1226 | A lock session prints exactly the longest run that continues last_seg_acked, no more and no less |
| `ClientProgram.PopAllIsRun` | TCP-like-protocal-usingUDPsocket/code/udpcli.c:1205-1226 | A lock session is a run of that many pops, each advancing last_seg_acked first and lowering the counter after |
| `ClientProgram.AsksForNext` | TCP-like-protocal-usingUDPsocket/code/udpcli.c:617-624 | Undisturbed, the client asks for the number after the last printed one and advertises exactly the free places of its list, or says that everything is printed |
| `ClientProgram.ReadsAsAdvertised` | TCP-like-protocal-usingUDPsocket/code/udpcli.c:686-853 | After a request with room for n the client reads exactly n ordinary segments, or one if n is 0, before it asks again |
| `ClientProgram.TakesSegment` | TCP-like-protocal-usingUDPsocket/code/udpcli.c:791-853 | A data segment is stored exactly if its number is above last_seg_acked, absent, and there is room; the end of the file is remembered; the inner loop is left exactly on an end-of-file, resent or last-in-round flag |
| `ClientProgram.TurnsAway` | TCP-like-protocal-usingUDPsocket/code/udpcli.c:777-785 | An error reply ends the client and a probe makes it ask again, with nothing stored |
| `Windows.SlidingWindow.Insert` | TCP-like-protocal-usingUDPsocket/code/udpcli.c:800-822 | The pointer walk equals the sorted insert on the contents, list shape and counter kept |
| `Windows.SlidingWindow.Prune` | TCP-like-protocal-usingUDPsocket/code/udpserv.c:781-790 | The pruning loop drops exactly the leading nodes numbered at most last_seg_acked |
| `Windows.SlidingWindow.Append` | TCP-like-protocal-usingUDPsocket/code/udpserv.c:904-918 | The append adds a node at the tail exactly when its number is absent |
| `Windows.SlidingWindow.Seek` | TCP-like-protocal-usingUDPsocket/code/udpcli.c:804-816 | The walk stops behind the last smaller number |
| `Windows.SlidingWindow.InsertBehind` | TCP-like-protocal-usingUDPsocket/code/udpcli.c:810-812 | Linking a node in splices its segment into the contents |
| `Windows.SlidingWindow.RemoveFirst` | TCP-like-protocal-usingUDPsocket/code/udpcli.c:1209-1222 | Unlinking the head drops the first segment and keeps the rest |
| `Windows.SortedInsertCorrect` | TCP-like-protocal-usingUDPsocket/code/udpcli.c:804-822 | A sorted list stays strictly sorted; a new number is added once as a multiset, a known one changes nothing |
| `Windows.Pigeonhole` | TCP-like-protocal-usingUDPsocket/code/udpcli.c:617-618 | A strictly sorted list inside an interval of n numbers that misses one of them is shorter than n |
| `Windows.AbsentAtPlace` | TCP-like-protocal-usingUDPsocket/code/udpcli.c:806-808 | In a sorted list a number is present exactly when it is at the position the walk stops at |
| `Segments.FillPayload` | TCP-like-protocal-usingUDPsocket/code/udpserv.c:839-850 | The copy loop yields the zero-padded slice and sets the end-of-file flag exactly on the last segment |
| `Segments.WholeFilePrinted` | TCP-like-protocal-usingUDPsocket/code/udpserv.c:839-850 | Printing all slices once and in order reproduces the file if and only if it has no NUL byte |
| `Segments.OutputOfPrefix` | TCP-like-protocal-usingUDPsocket/code/udpcli.c:1211-1212 | For a NUL-free file the output of k slices is the first k payloads of the file |
| `Segments.PrintedToFirstNul` | TCP-like-protocal-usingUDPsocket/code/udpcli.c:1211-1212 | A payload is printed up to its first NUL byte and no less |
| `Codec.RoundTrip` | TCP-like-protocal-usingUDPsocket/code/udpserv.c:852-902 | Encoding gives exactly 512 bytes and decoding gives the segment back, negative 32-bit fields included |
| `Codec.DecodeInverts` | TCP-like-protocal-usingUDPsocket/code/udpcli.c:724-772 | Encoding what was decoded gives the datagram back, so decoding is injective |
| `Codec.TimeWaitRoundTrip` | TCP-like-protocal-usingUDPsocket/code/udpcli.c:935-985 | The shifted TIME_WAIT datagram still decodes to the same sequence, ACK, flags, rwnd and timestamp |
| `Codec.WireLayout` | TCP-like-protocal-usingUDPsocket/code/udpserv.c:852-902 | The datagram holds sequence, ACK, rwnd and timestamp big-endian at 0, 4, 12 and 16, flags at 8 to 11 and 20 and the payload from 21 on; in the TIME_WAIT datagram the payload starts at 20 |
| `Codec.IntRoundTrip` | TCP-like-protocal-usingUDPsocket/code/udpserv.c:858-861 | Four bytes and back for every 32-bit number |
| `Codec.BytesRoundTrip` | TCP-like-protocal-usingUDPsocket/code/udpcli.c:724-729 | Any four bytes and back |
| `Codec.EncodeInto` | TCP-like-protocal-usingUDPsocket/code/udpserv.c:852-902 | The byte-copying encoder overwrites the whole buffer with the encoding |
| `Codec.EncodeTimeWaitInto` | TCP-like-protocal-usingUDPsocket/code/udpcli.c:935-985 | The TIME_WAIT encoder fills 511 bytes and leaves the last one as it was |
| `Codec.DecodeFrom` | TCP-like-protocal-usingUDPsocket/code/udpcli.c:721-772 | The byte-copying decoder computes the decoding |
| `Codec.PutInt` | TCP-like-protocal-usingUDPsocket/code/udpserv.c:858-865 | One big-endian field is written, every other byte is kept |
| `Codec.TakeInt` | TCP-like-protocal-usingUDPsocket/code/udpcli.c:724-729 | One big-endian field is read as a signed number |
| `Congestion.SoundInEveryRun` | TCP-like-protocal-usingUDPsocket/code/udpserv.c:1035-1087 | After any run of ACKs and timeouts: cwnd and ssthresh at least 1, the order between them in each state, state 3 exactly at three duplicates, and the maximum at most 8 plus the ACKs outside slow start |
| `Congestion.SlowStartClosedForm` | TCP-like-protocal-usingUDPsocket/code/udpserv.c:1039-1067 | k new ACKs from slow start: cwnd is c*2^k below the threshold and then threshold plus one per ACK |
| `Congestion.ThresholdIsReached` | TCP-like-protocal-usingUDPsocket/code/udpserv.c:1045-1048 | The switching point exists for every window and threshold |
| `Congestion.LossClosedForm` | TCP-like-protocal-usingUDPsocket/code/udpserv.c:1049-1083 | From any sound window: the third duplicate, k more and a new ACK lead to state 2 with the window and threshold at half of what the window was, rounded down and at least 1; a timeout leaves that half as the threshold, with window 1 and state 1 |
| `Congestion.ThirdDupClosedForm` | TCP-like-protocal-usingUDPsocket/code/udpserv.c:1049-1083 | After the third duplicate and k more: state 3, the threshold half the window, the window that half plus k |
| `Congestion.AvoidanceClosedForm` | TCP-like-protocal-usingUDPsocket/code/udpserv.c:1061-1067 | In avoidance, with no third duplicate, the window grows by the number of times the ACK number changes, and duplicates are counted since the last change |
| `Congestion.SlowStartKeepsDoubling` | TCP-like-protocal-usingUDPsocket/code/udpserv.c:1039-1048 | In slow start below the threshold, with no third duplicate, the window doubles per change of the ACK number |
| `Congestion.FirstWindows` | TCP-like-protocal-usingUDPsocket/code/udpserv.c:517-522 | The first new ACKs of a transfer give windows 2, 4, 8 and then one more each |
| `Congestion.Controller.constructor` | TCP-like-protocal-usingUDPsocket/code/udpserv.c:517-522 | Initial congestion variables |
| `Congestion.Controller.Adjust` | TCP-like-protocal-usingUDPsocket/code/udpserv.c:1035-1087 | get_cwnd on the real variables equals the state-machine step |
| `Congestion.Controller.EnterFastRetransmit` | TCP-like-protocal-usingUDPsocket/code/udpserv.c:1050-1060 | Halving, never to 0 |
| `Congestion.Controller.Reset` | TCP-like-protocal-usingUDPsocket/code/udpserv.c:620-626 | The timeout reset equals the state-machine step |
| `Timer.KarnFiltering` | TCP-like-protocal-usingUDPsocket/code/udpserv.c:552-572 | After any run the estimate equals the fold of the update over the initial 0 and exactly the samples of ACKs that do not directly follow a timeout (section 3 of RFC 6298) |
| `Timer.EstimatorBounds` | TCP-like-protocal-usingUDPsocket/code/udpserv.c:513-515 | Samples in [0, M] keep srtt in [0, 8M+7] and rttvar in [0, 4M+3] in every run, hence inside 32 bits whenever 8M+7 is |
| `Timer.EstimatorBoundIsExact` | TCP-like-protocal-usingUDPsocket/code/udpserv.c:552-561 | Those bounds hold for all runs if and only if M is at least 328125 |
| `Timer.SmoothBounded` | TCP-like-protocal-usingUDPsocket/code/udpserv.c:554-567 | One update keeps the bounds despite the flooring shifts, and clamps the RTO |
| `Timer.BackOff` | TCP-like-protocal-usingUDPsocket/code/udpserv.c:563-583 | In every run the armed wait is within 1 to 3 s, never shrinks on a timeout, sits at the cap from the second doubling on, and the sender gives up exactly at twelve trailing timeouts |
| `Timer.AbortWait` | TCP-like-protocal-usingUDPsocket/code/udpserv.c:536-540 | From any ACK to the abort there are exactly twelve expiries; the waits add up to the RTO, twice the RTO but at most 3 s, and 30 s, which is between 33 and 36 s |
| `Timer.RtoFollowsEstimate` | TCP-like-protocal-usingUDPsocket/code/udpserv.c:561-567 | In every run the RTO is srtt/8 + rttvar where that lies in 1 to 3 s, and the nearer end otherwise |
| `Timer.ArmedExactly` | TCP-like-protocal-usingUDPsocket/code/udpserv.c:576-580 | In every run the wait is the RTO, after one timeout twice the RTO but at most 3 s, after more 3 s |
| `Timer.FirstWait` | TCP-like-protocal-usingUDPsocket/code/udpserv.c:512-567 | The very first wait is 1476562 microseconds |
| `Timer.TracksRfc6298` | TCP-like-protocal-usingUDPsocket/code/udpserv.c:554-560 | In every run, whatever the samples, srtt stays within 7 of 8 SRTT and rttvar between 3.5 below and 6.5 above 4 RTTVAR, for SRTT and RTTVAR computed without rounding as section 2.3 of RFC 6298 says, from the trusted samples |
| `Timer.UpdateTracks` | TCP-like-protocal-usingUDPsocket/code/udpserv.c:554-560 | One update of the shifted integers keeps that distance from one update of the exact values |
| `Timer.Converges` | TCP-like-protocal-usingUDPsocket/code/udpserv.c:552-567 | After any run there is a number of equal trusted samples M from which on srtt lies in [8M, 8M+7], rttvar in [0, 3] and the RTO is M + rttvar moved into its range; the distance of srtt from 8M never grows on the way |
| `Timer.AcksAreSteady` | TCP-like-protocal-usingUDPsocket/code/udpserv.c:569-571 | ACKs that all measure M are such samples, unless the run ended in a timeout |
| `Timer.Clock.constructor` | TCP-like-protocal-usingUDPsocket/code/udpserv.c:512-533 | Initial estimator variables; arming them gives the start state |
| `Timer.Clock.LoopTop` | TCP-like-protocal-usingUDPsocket/code/udpserv.c:552-583 | The in-place estimator and wait computation equal the functional ones |
| `Timer.Clock.Expired` | TCP-like-protocal-usingUDPsocket/code/udpserv.c:615-618 | A timeout marks the next sample as untrusted and counts |
| `Timer.Clock.TakeSample` | TCP-like-protocal-usingUDPsocket/code/udpserv.c:704-708 | A reply clears the counter and records the sample |
| `Interfaces.SelectionIsBySubnet` | TCP-like-protocal-usingUDPsocket/code/udpcli.c:278-314 | With contiguous masks the result is -1 exactly when no live interface is on the server's subnet, and otherwise the first same-subnet interface with the longest common prefix |
| `Interfaces.Select` | TCP-like-protocal-usingUDPsocket/code/udpcli.c:278-314 | The loop returns the first position of the largest matching prefix among the live entries, or -1 |
| `Interfaces.MatchesIffSameSubnet` | TCP-like-protocal-usingUDPsocket/code/udpcli.c:289-299 | For a contiguous mask, prefix length at least the mask's bit count holds exactly when both addresses agree under the mask |
| `Interfaces.MaskLength` | TCP-like-protocal-usingUDPsocket/code/udpcli.c:1043-1058 | The bit count of a contiguous mask is its length, although the code counts in the other byte order |
| `Interfaces.OnesByteOrder` | TCP-like-protocal-usingUDPsocket/code/udpcli.c:1045-1048 | The number of set bits does not depend on byte order |
| `Interfaces.Prefix` | TCP-like-protocal-usingUDPsocket/code/udpcli.c:1021-1041 | Longest common prefix: agreement below it, a difference at it unless it is 32 |
| `Interfaces.GetLongest` | TCP-like-protocal-usingUDPsocket/code/udpcli.c:1021-1041 | The comparison loop computes the common prefix |
| `Interfaces.GetNetworkMaskNum` | TCP-like-protocal-usingUDPsocket/code/udpcli.c:1043-1058 | The shift loop counts the set bits |
| `Interfaces.GetBitString` | TCP-like-protocal-usingUDPsocket/code/udpcli.c:1060-1075 | The bit string holds the address bits, most significant first |
| `Interfaces.BitOfOctet` | TCP-like-protocal-usingUDPsocket/code/udpcli.c:1060-1075 | Bit 8i + k of the bit string is bit k, from the top, of octet i of the address |
| `Interfaces.PrefixOfOctets` | TCP-like-protocal-usingUDPsocket/code/udpcli.c:1021-1041 | The common prefix is at least 8i exactly when the first i octets agree |
| `Interfaces.SubnetByOctets` | TCP-like-protocal-usingUDPsocket/code/udpcli.c:289-299 | Being on one subnet is equality of the four octet-wise conjunctions with the mask |
| `Interfaces.ContiguousByOctets` | TCP-like-protocal-usingUDPsocket/code/udpcli.c:1043-1058 | A mask is contiguous of length m exactly when its octets are 255s, one octet with the remaining leading bits, and 0s |
| `Interfaces.WholeOctetMask` | TCP-like-protocal-usingUDPsocket/code/udpcli.c:1043-1058 | A mask of i octets of 255 and then 0s is contiguous of length 8i |
| `OdrRoute.DiscoveryBuildsTree` | On-Demand shortest-hop Routing (ODR) protocol/code/odr_chechung.c:714-893 | An undisturbed discovery, in every state of every timely run from any tables: the next hops of the nodes the request got to form a loop-free tree that leads to the source in hops_to_dest steps, all other tables are untouched, at most one RREP is created and its next relay has a route back, deliveries are bounded, and a route at the source leads to the destination in hops_to_dest steps, as many as its depth in the tree |
| `OdrRoute.DiscoverySucceeds` | On-Demand shortest-hop Routing (ODR) protocol/code/odr_chechung.c:760-893 | Once nothing is in flight, every node joined to the source over relays that hold no route to the destination turning stale meanwhile is reached; if the destination is, exactly one RREP was created and the source has such a route |
| `OdrRoute.SuccessIsOpen` | On-Demand shortest-hop Routing (ODR) protocol/code/odr_chechung.c:765-775 | Every timely run that delivers everything gives the source a working route if and only if the destination is joined to it that way |
| `OdrRoute.SilentRun` | On-Demand shortest-hop Routing (ODR) protocol/code/odr_chechung.c:765-775 | If it is not, a timely run delivers everything and leaves the source without a route |
| `OdrSilence.SecondOfSilence` | On-Demand shortest-hop Routing (ODR) protocol/code/odr_chechung.c:765-775 | Three nodes in a row, a forced discovery, everything delivered in time, no route |
| `OdrRoute.CleanDiscovery` | On-Demand shortest-hop Routing (ODR) protocol/code/odr_chechung.c:714-840 | From empty tables, forced or not: in every state the recorded next hops towards the source have no loop anywhere and lead to it in hops_to_dest steps, at most one RREP exists and its next relay has a route back, deliveries are bounded, and a route at the source leads to the destination in hops_to_dest steps |
| `OdrRoute.CleanDiscoverySucceeds` | On-Demand shortest-hop Routing (ODR) protocol/code/odr_chechung.c:852-893 | On a connected topology, once nothing is in flight every node is reached, exactly one RREP was created and the source has such a route |
| `OdrRoute.PointersLeadBack` | On-Demand shortest-hop Routing (ODR) protocol/code/odr_chechung.c:741-754 | Following next hops from a reached node gets to the source in exactly hops_to_dest steps |
| `OdrRoute.NoLoops` | On-Demand shortest-hop Routing (ODR) protocol/code/odr_chechung.c:741-754 | Following recorded next hops and interfaces towards the source from a reached node, with no regard to hop counts, never comes back to it |
| `OdrRoute.PointersDescend` | On-Demand shortest-hop Routing (ODR) protocol/code/odr_chechung.c:741-754 | Wherever the next hop and interface of a reached node lead, the node there is reached and exactly one hop nearer the source |
| `OdrRoute.DeliverWork` | On-Demand shortest-hop Routing (ODR) protocol/code/odr_chechung.c:698-893 | Every delivery keeps the invariant of an undisturbed discovery and uses up one unit of a bounded measure |
| `OdrDiscovery.CopyIgnored` | On-Demand shortest-hop Routing (ODR) protocol/code/odr_chechung.c:760-764 | A node already in the tree ignores further copies of the request |
| `OdrDiscovery.FirstCopy` | On-Demand shortest-hop Routing (ODR) protocol/code/odr_chechung.c:714-840 | The first copy makes a node join below the sender, whatever its table held; a relay passes it on unless its old route turns stale that very second, and the destination answers and passes it on if it did not know the source or knew it farther away |
| `OdrDiscovery.ReplyTaken` | On-Demand shortest-hop Routing (ODR) protocol/code/odr_chechung.c:852-862 | A forced RREP, or one that finds no route, makes the node take its sender as next hop |
| `OdrCleanRun.JoinStep` | On-Demand shortest-hop Routing (ODR) protocol/code/odr_chechung.c:765-775 | A relay that joins the tree keeps the whole invariant |
| `OdrCleanRun.AnswerStep` | On-Demand shortest-hop Routing (ODR) protocol/code/odr_chechung.c:807-838 | The destination creates the one RREP, sent to its parent in the tree |
| `OdrReply.HomeStep` | On-Demand shortest-hop Routing (ODR) protocol/code/odr_chechung.c:865-880 | The RREP reaching the source completes the route |
| `OdrReply.RelayStep` | On-Demand shortest-hop Routing (ODR) protocol/code/odr_chechung.c:881-893 | A relay always has a non-empty entry for the source and passes the RREP to its parent only |
| `OdrFlood.FloodOncePerNode` | On-Demand shortest-hop Routing (ODR) protocol/code/odr_chechung.c:760-840 | For any discovery, topology and interleaving, each node re-floods at most once and answers at most once, the source never, so there are at most n - 1 re-broadcasts |
| `OdrFlood.ReactsOnce` | On-Demand shortest-hop Routing (ODR) protocol/code/odr_chechung.c:716-719 | A node reacts to a request only if its id is new there, and then records it |
| `OdrFlood.SlotsGrow` | On-Demand shortest-hop Routing (ODR) protocol/code/odr_chechung.c:760-764 | No packet, RREP included, ever lowers a recorded id of two different nodes |
| `OdrTermination.FloodDiesOut` | On-Demand shortest-hop Routing (ODR) protocol/code/odr_chechung.c:760-840 | The RREQ frames of one discovery that any run delivers are bounded by links*n + links |
| `OdrTermination.StepWeight` | On-Demand shortest-hop Routing (ODR) protocol/code/odr_chechung.c:164-203 | A potential of marked nodes and frames in flight never grows and pays for every delivery |
| `OdrHops.HopCountsAreReal` | On-Demand shortest-hop Routing (ODR) protocol/code/odr_chechung.c:741-754 | In every run of forced discoveries, with loss and expiry, each usable entry's hops_to_dest is the length of a walk whose last link is the recorded next hop and interface |
| `OdrHops.RreqReal` | On-Demand shortest-hop Routing (ODR) protocol/code/odr_chechung.c:801-805 | Handling a request keeps hop counts real in the table and in what is sent on |
| `OdrHops.RrepReal` | On-Demand shortest-hop Routing (ODR) protocol/code/odr_chechung.c:852-892 | The same for a reply |
| `OdrNode.CheckAddressNotEmpty` | On-Demand shortest-hop Routing (ODR) protocol/code/odr_chechung.c:154-162 | The loop finds an odd byte exactly when there is one |
| `OdrTables.RouteBack` | On-Demand shortest-hop Routing (ODR) protocol/code/odr_chechung.c:720-757 | The entry for the source after an RREQ: a forced request with a new id, or any request where there is no route, leaves exactly the arriving address, interface and hop + 1; otherwise a fresh route is kept, and one past freshness is replaced exactly if its hops are at least hop + 1 |
| `OdrTables.RelayReacts` | On-Demand shortest-hop Routing (ODR) protocol/code/odr_chechung.c:760-806 | What a relay does with a new request: pass it on, answer it with 0 hops from a fresh route and pass it on as answered if the source was unknown or farther, or nothing in the second its route turns stale |
| `OdrTables.OldIdIgnored` | On-Demand shortest-hop Routing (ODR) protocol/code/odr_chechung.c:760-764 | A request with an id seen before is neither passed on nor answered |
| `OdrTables.OtherEntries` | On-Demand shortest-hop Routing (ODR) protocol/code/odr_chechung.c:720-838 | An RREQ changes no third entry, and no next hop, interface or hop count but the source's |
| `OdrTables.RouteForward` | On-Demand shortest-hop Routing (ODR) protocol/code/odr_chechung.c:852-893 | The entry for the replying node after an RREP: a forced one always replaces it, an unforced one replaces a missing or expired route and a live one exactly if it is shorter, so a live route never gets longer; the RREP goes on to the next hop towards the asker |
| `OdrTables.ClientAsks` | On-Demand shortest-hop Routing (ODR) protocol/code/odr_chechung.c:646-663 | A forced client request forgets the route and always floods; an unforced one changes nothing and floods exactly when the route is absent or older than the stale time |
| `OdrNode.Router.UpdateReverse` | On-Demand shortest-hop Routing (ODR) protocol/code/odr_chechung.c:714-757 | The reverse-path update on the table equals the functional one |
| `OdrNode.Router.ReceiveRreq` | On-Demand shortest-hop Routing (ODR) protocol/code/odr_chechung.c:698-840 | The RREQ branch on the table equals the functional handler |
| `OdrNode.Router.SendReply` | On-Demand shortest-hop Routing (ODR) protocol/code/odr_chechung.c:809-838 | Reply and the extra flood when the source was unknown or farther |
| `OdrNode.Router.ReceiveRrep` | On-Demand shortest-hop Routing (ODR) protocol/code/odr_chechung.c:841-893 | The RREP branch on the table equals the functional handler |
| `OdrNode.Router.ClientRequest` | On-Demand shortest-hop Routing (ODR) protocol/code/odr_chechung.c:628-663 | A client request draws a new id, clears a forced route and floods when there is no usable one |
| `OdrNode.Router.SetRoute` | On-Demand shortest-hop Routing (ODR) protocol/code/odr_chechung.c:741-754 | The four field writes of a learned route |
| `OdrNet.FloodMember` | On-Demand shortest-hop Routing (ODR) protocol/code/odr_chechung.c:164-203 | A broadcast puts exactly one kind of frame on exactly the links that leave the node |
| `OdrNet.UnicastOne` | On-Demand shortest-hop Routing (ODR) protocol/code/odr_chechung.c:885-892 | A frame addressed to a neighbour reaches it once and nobody else |

## Left out

- Sockets, `select`, signals, `fork`, the filename handshake, random drops and sleeps: they appear only as nondeterministic deliver, lose, duplicate, timeout and consumer steps.
- A missing file (sequence number -1) and an empty file: the model assumes a non-empty file and windows of at least one segment; the client's branch for -1 is modelled but never taken.
- Timestamps and clock readings: segments of the transition system carry timestamp 0, RTT samples are inputs, and one ODR frame is handled at one clock reading.
- The product at `udpserv.c:576` is a mathematical integer; its 32-bit overflow is not modelled.
- Sequence numbers, ACK numbers and broadcast ids are unbounded; `TransferSafety.MessagesFitTheWire` covers every file and window that a C `int` can count.
- `cwnd` and `ssthresh` are unbounded integers.
- Interrupted `select` calls (EINTR) that restart the sender loop without an event.
- The receive thread frees the list's dummy node before it joins the consumer (`udpcli.c:883-901`); the model keeps the node alive.
- The line of text that the consumer prints before each payload; `Segments.Output` is the payload bytes only.
- Memory of nodes that the lists no longer reach; a node allocated for a duplicate is leaked by the code and not counted here.
- One lock session of the consumer is a sequence of pops in the transition system, so the model also allows an insert between two of them; this adds runs and removes none.
- The loopback shortcut and the use made of the chosen interface (`udpcli.c:271-276`, `udpcli.c:316` on).
- The ODR send buffer, application messages (type 2) and the port map: application messages overwrite routes unconditionally, so the route results do not extend to runs that contain them.
- OdrHops.HopCountsAreReal: covers forced discoveries; an intermediate node's reply to an unforced one starts at hop 0, so its counts are relative to the replier.
- Whole runs of unforced discoveries that meet nodes with routes, and of several discoveries at once: the tree and route results cover one undisturbed discovery; `OdrTables` says what each single node does in the other cases, and the flood and hop-count results cover any mixture.
- OdrFlood.FloodOncePerNode: starts from empty tables; a node that restarts and draws its ids again from 1 is not modelled.
- The number of nodes and interfaces is arbitrary instead of the fixed constants, and every interface address is assumed to have an odd byte and to be unique.
- The ARP and tour programs, `dg_send_recv.c`, the Java FTP programs, the TCP server, interface enumeration and printing: system calls and user interface, or easy members only.
