# Verified models of the game's networking and server code

This project models the parts of the repository whose correctness is hard to see from the code, and
proves what the code is for. Each core file keeps its own form: fields, arrays and lists that the code
updates in place are class fields and arrays here, loops are loops with invariants, and every method is
proved against functions on values about which the theorems are stated.

**The packet compressor** (`src/enet/compress.c`) is an adaptive order-2 model that drives a carry-less
32-bit range coder. `CarrylessCoder` has the coder's arithmetic, `Frequencies` and `PpmModel` the model
as a map from histories to tables of frequencies, `PpmRoundTrip` the theorems. `SymbolTrees` and
`PpmLinks` show how the array of symbols represents that map; the encoder and the decoder allocate
symbols in different orders and both represent the same model. `CoderLoops` and `RangeCoder` are the two
functions themselves, on the array, refining the model. The main theorem is the round trip on every input.
`PpmCounts` says what the compressor writes without its model: tables, slots and bytes as counts of the input.

**Delivery** (`src/enet/peer.c`, `src/enet/protocol.c`): sender, network and receiver of one channel as a
state machine with unbounded numbers, of which the code only has 16 bits. `SequenceNumbers` relates the
two; `IncomingChannel` is the receiver on values and `ChannelReceiver` its lists in place;
`DeliveryModel`, `DeliveryProof`, `DeliveryInvariant` and `DeliveryTheorems` have the runs, the invariant
and the theorem on reliable and unreliable packets together; `ReliableRuns` erases the unreliable packets from
a run and has the theorems on reliable ones; `Progress` has what a connection can still deliver, from every
state of every run; `ReliableWindows`, `OutgoingLists` and `ChannelSender` are the sender's counters and
lists in place, shown to make the steps of the state machine. The network may lose, duplicate and reorder
datagrams, but must not keep them for ever. Where the sender has moved on by at most nine windows of 4096
numbers beyond the start of a reliable packet, its datagrams may still arrive, and an acknowledgement may be
a whole turn of the number space late. Nothing is assumed of datagrams with unreliable packets, except in the
theorem on the two kinds together: there they have the same lifetime, and name a reliable number at most eight
windows beyond the newest one sent. `DatagramLifetime` proves that none of the three bounds can be longer, that
the first never excludes a reliable packet that was not dispatched yet, and what the handlers do with a datagram
that was kept longer; `Retransmissions` does so for what the sender itself repeats. `LargePackets` has the
largest packet that can arrive, `UnreliableDrops` the unreliable packets that the receiver removes.
`UnsequencedWindow` has the bitmap for unsequenced packets.

**Bandwidth** (`src/enet/host.c`): `BandwidthThrottle` has the two loops that share a host's bandwidth,
with closed forms of what they compute, and the counters of peers that they rely on.

**Smaller parts**: `Crc32` (table-driven CRC-32 against the bit-serial one of section 8 of RFC 1952),
`WorldStateBroadcast` and `WorldStateLifetime` (the server's broadcast out of one doubled buffer, and when
that buffer is freed), `BotAssignment` (which client runs which bot), `QuotedStrings` (strings of the
script language), and its calls of aliases: `AliasCalls` says what a piece of script means, and `CommandFrames` has
the code that runs it, with values hidden in frames and compiled blocks that are counted, as a refinement of
that. `Words` holds word types and small facts about arithmetic, sets and sums.

Where the code falls short of what its comments or names suggest, the model follows the code, a lemma
gives the case, and the exact condition is proved:

- `escapestring` and `cutstring` undo each other if and only if there is no carriage return.
- `enet_peer_send` accepts packets of up to 2^20 fragments. One never arrives, and nothing reliable behind it
  does, if its numbers reach into the eighth window behind the number before them, or if its data in the seventh
  or in a single command exceeds the limit on reliable data in flight, which is never above 65536 bytes. Any other can
  arrive, from every state of every run in which what the sender keeps can still be repeated in time. With an mtu
  of 576, a packet of 28800 fragments, half of what a host accepts by default, is too long.
- A fragment of an old packet is told by the packet's first number. Packets with numbers in up to four windows are
  safe; of one with numbers in five, the sender's own repetition of the last fragment can be queued and acknowledged
  as the first of a new packet, without any delay in the network.
- An unreliable packet does not wait for windows. One sent behind more than eight windows of reliable commands
  that wait can be dispatched in front of them.
- Of the unreliable packets in fragments whose turn it is, the receiver keeps the last two and the one just
  begun, and removes the others although nothing later was dispatched. A removed packet can still be dispatched
  if and only if no later one was.
- The loop that drops the fragments of an unreliable packet goes by the two numbers alone. An unsequenced
  packet has the numbers 0, 0; when it is dropped for the throttle's sake, it takes a reliable one with it if and
  only if that one's number is 0 again, as every 65536th is, and only commands with these numbers stand between
  them. The channel's number is then never sent, and the receiver waits for it. Under the same condition the loop
  comes upon a command that has no packet, such as a ping, and uses its packet.
- A length in front of a client's messages is read back if and only if it has at most 28 bits.
- An argument that is called as an alias is looked up after the call's own arguments are bound: if the call passes
  one in its place, that one runs.
- A bandwidth level of 0, which tells a peer that it is not limited at all, arises if and only if the host has
  less bandwidth than there are peers that ask for some.

`shiftai` must not give a bot to the client that has it already, which would lose it from that client's list;
its two callers never do.

## Model

| member | source | states |
|---|---|---|
| PpmRoundTrip.RoundTrip | src/enet/compress.c:246-627 | the law of the compressor: for every input, decompressing what compress wrote returns exactly the input if the output limit is at least its length and fails if it is not, the end of the stream being implicit; nothing is written just for the empty input |
| PpmRoundTrip.CompressInjective | src/enet/compress.c:246-342 | two different inputs never compress to the same bytes |
| PpmRoundTrip.CompressedNotEmpty | src/enet/compress.c:114-146 | a non-empty input never compresses to zero bytes, which would read as a failure |
| PpmRoundTrip.InStep | src/enet/compress.c:286-336 | after every byte the decoder holds the encoder's model (tables, escapes, history, symbol count, hence the same resets), has read that byte, and stands where the encoder stood in the stream |
| PpmRoundTrip.SearchInverts | src/enet/compress.c:529-596 | the decoder's descent from the longest context takes the encoder's slots one by one and stops in the context where the encoder stopped, with the encoder's byte |
| PpmRoundTrip.SearchEnds | src/enet/compress.c:563-575 | once the stream is used up the decoder escapes every context and stops on the root's escape: the implicit end of the stream |
| PpmRoundTrip.LearningAgrees | src/enet/compress.c:598-615 | the decoder, which learns a byte in the bottom context first and then in the longer ones, ends with the model of the encoder, which learns from the longest context down |
| PpmRoundTrip.SlotsAfterLearn | src/enet/compress.c:286-316 | learning in a longer context does not change what a shorter one codes |
| PpmRoundTrip.DecodeAllInverts | src/enet/compress.c:520-624 | induction over the whole stream: from any state in step, the remaining bytes are output, or the failure is reported as soon as the limit is reached |
| CarrylessCoder.SlotFits | src/enet/compress.c:121-125 | the divided range is at least 1 and a slot of a table whose total is at most 2^16 never leaves the interval |
| CarrylessCoder.Narrow | src/enet/compress.c:121-125 | the narrowed interval is not empty, lies inside the old one and ends at or below 2^32 |
| CarrylessCoder.CutAtBlock | src/enet/compress.c:128-132 | an interval below 2^16 that crosses a block boundary keeps exactly the part before the boundary |
| CarrylessCoder.Squeeze | src/enet/compress.c:126-132 | the range forced by the settling loop is positive, does not grow and does not cross the boundary of its 2^24 block |
| CarrylessCoder.ShiftKeepsInv | src/enet/compress.c:126-137 | a round of the settling loop keeps 0 < range and low + range <= 2^32, drops no bit of the range, and lowers a rank, so the loop ends |
| CarrylessCoder.LastBlock | src/enet/compress.c:126-137 | an interval that ends at exactly 2^32 is never cut, although the wrapped sum is 0 |
| CarrylessCoder.Settle | src/enet/compress.c:126-138 | after the loop the range is at least 2^16 and the two ends differ in their top byte |
| CarrylessCoder.SettleEncloses | src/enet/compress.c:126-138 | if what follows lies in the settled interval, the bytes emitted and what follows lie in the interval before |
| CarrylessCoder.StreamInInterval | src/enet/compress.c:121-146 | the first four bytes of the whole stream to come, padded with zeros after the flush, lie in every interval the encoder ever holds |
| CarrylessCoder.CodingSplits | src/enet/compress.c:121-146 | coding two lists of slots one after the other emits, and leaves, what coding their concatenation does |
| CarrylessCoder.DecodeInverts | src/enet/compress.c:352-371 | reading back one slot: the quotient lies in the encoded slot, and advancing over it keeps the decoder in step with the encoder |
| CarrylessCoder.FlushReadsAsEnd | src/enet/compress.c:139-146 | after the flush the decoder stands at the low end of its interval |
| CarrylessCoder.EndStays | src/enet/compress.c:352-371 | there every table reads as code 0, and taking the bottom slot keeps it so |
| Frequencies.Find | src/enet/compress.c:373-413 | the value found is one whose slot holds the code |
| Frequencies.SlotUnique | src/enet/compress.c:373-413 | no other value's slot holds it |
| Frequencies.CompareSlot | src/enet/compress.c:384-397 | the comparisons with a node's cumulative bounds tell on which side the sought value lies |
| Frequencies.GapSlot | src/enet/compress.c:418-438 | where no value has a count, slots of minimum 1 lie side by side, so a value is computed from the bound on either side of the gap |
| Frequencies.HalveSum | src/enet/compress.c:90-105 | rescaling halves a sum of counts up to rounding |
| PpmModel.AddSymbolFits | src/enet/compress.c:306-315 | counters stay within 8 bits and totals within 16 between the counting of a symbol and the rescaling it may cause |
| PpmModel.BumpKeepsOk | src/enet/compress.c:306-329 | learning keeps total <= 2^16 - 2^8, room for one more update in every 8-bit count, and escapes = 0 just for an unused subcontext |
| PpmModel.LearnKeepsTables | src/enet/compress.c:286-329 | so do all tables of the model together |
| PpmModel.SlotCodable | src/enet/compress.c:299-325 | every slot coded has a positive count and a total of at most 2^16 |
| PpmCounts.BumpIs | src/enet/compress.c:299-329 | what learning makes of one table, in the source's numbers: 3 for a byte in the root, 2 in a context and 5 for the escape of a byte that is new there, and everything halved, odd counts upwards, just above 249, 251 or 65280 |
| PpmCounts.LearnsWhere | src/enet/compress.c:286-316 | a byte is learnt in the longest context and in each shorter one as long as it was new in the one before, and nowhere else |
| PpmCounts.OwnSlotsAre | src/enet/compress.c:299-325 | what a byte costs in any one table, halved or not: its slot, the escape's, or nothing, in numbers |
| PpmCounts.NextByteIs | src/enet/compress.c:331-337 | the history is the last two bytes; from 4094 symbols on everything starts over |
| PpmCounts.TablesAre | src/enet/compress.c:286-329 | as long as no table was halved, the tables after an input as a count of that input: a count is 3, or 2, times the number of places where the byte was coded in that context, escapes 5 times the number of different bytes behind it, the root's total 257 and its counts |
| PpmCounts.ShortIsCalm | src/enet/compress.c:318-337 | no table is halved and the symbols do not run out in the first 83 bytes of any input |
| PpmCounts.CodedAre | src/enet/compress.c:299-325 | so are the slots: the compressor codes those of the counted tables, from the longest context to the one where it stops |
| PpmCounts.FourLetters | src/enet/compress.c:299-325 | the six slots of the input aaab, as numbers |
| PpmCounts.IntervalIs | src/enet/compress.c:121-125 | one code is worth the quotient of range and total; a slot begins at its under and is as long as its count |
| PpmCounts.SettlingIs | src/enet/compress.c:126-138 | each round of the settling loop in numbers, and when it stops |
| PpmCounts.FlushIs | src/enet/compress.c:139-146 | the bytes of a flush are those of low, from the top, without the zeros at the end |
| PpmCounts.CompressedIs | src/enet/compress.c:246-342 | the compressed bytes are those of the counted slots |
| PpmCounts.FourLettersCompressed | src/enet/compress.c:246-342 | the six compressed bytes of the input aaab: 62 01 7a 18 d4 c4 |
| SymbolTrees.SlotAt | src/enet/compress.c:164-199 | a node's under is its count plus the sum of its left subtree: from the sum in front of the subtree it gives the value's cumulative interval |
| SymbolTrees.CompareAt | src/enet/compress.c:384-397 | the decoder's after and before at a node are the cumulative bounds of its value, and the three-way comparison is that of the values |
| SymbolTrees.CountingKnown | src/enet/compress.c:190-196 | counting a value at its node keeps every tree ordered and every under exact |
| SymbolTrees.CountingNew | src/enet/compress.c:164-189 | so does attaching a new node at the vacant place the search found, whose value had no count before |
| SymbolTrees.Halving | src/enet/compress.c:90-112 | so does rescaling, which halves each count of one context, recomputes its sums and touches nothing else |
| PpmLinks.SymbolName | src/enet/compress.c:286-294 | a history has an entry in the array just when its last byte has a node in the tree of the history before it |
| PpmLinks.LearningRepresented | src/enet/compress.c:286-329 | an array that represents the order-2 model represents it after a context has learnt a byte, whatever index a new symbol gets: the encoder's and the decoder's arrays are two representations of one model |
| PpmLinks.WalkStep | src/enet/compress.c:286-294 | following parent leads from the entry of a history to the entry of the history without its oldest byte |
| PpmLinks.LinkPatched | src/enet/compress.c:615 | writing the bottom entry into the last open parent completes the links |
| CoderLoops.TopByteTest | src/enet/compress.c:128-129 | the exclusive-or test of the settling loop, computed in words, holds if and only if the two ends of the interval differ in their top byte; encoder and decoder branch on it |
| CoderLoops.XorShifted | src/enet/compress.c:128-129 | shifting words down commutes with their exclusive or, so that its top byte is that of the two top bytes |
| CoderLoops.EncodeSlot | src/enet/compress.c:121-138 | ENET_RANGE_CODER_ENCODE in 32-bit words: the bytes written and the new interval; failure just when the output buffer is too small |
| CoderLoops.FlushLow | src/enet/compress.c:139-146 | ENET_RANGE_CODER_FLUSH writes the bytes of low that are not trailing zeros; failure just when there is no room |
| CoderLoops.SeedCode | src/enet/compress.c:344-350 | ENET_RANGE_CODER_SEED: the first four bytes, or fewer, as a big-endian word padded with zeros |
| CoderLoops.ReadCode | src/enet/compress.c:352 | ENET_RANGE_CODER_READ: the quotient cut to 16 bits, and the range divided for good |
| CoderLoops.DecodeSlot | src/enet/compress.c:354-371 | ENET_RANGE_CODER_DECODE moves the decoder as the encoder moved over the same slot |
| CoderLoops.SettleOver | src/enet/compress.c:357-371 | the decoder's settling loop in words takes in one byte for each that the encoder put out, zeros behind the end |
| RangeCoder.RangeCoder.ContextEncode | src/enet/compress.c:159-199 | ENET_CONTEXT_ENCODE in place: under and count are the value's cumulative interval before it is counted, and the tree of the context has counted it |
| RangeCoder.RangeCoder.CreateFromCode | src/enet/compress.c:418-438 | the three create arguments of the root: value and slot computed from the code are those of a value that was absent, and its node is attached |
| RangeCoder.RangeCoder.ContextDecode | src/enet/compress.c:373-438 | ENET_CONTEXT_DECODE in place: the value whose slot holds the code, its slot, and the same counting as the encoder's; with minimum 0 it fails just for a code beyond every slot |
| RangeCoder.RangeCoder.SymbolRescale | src/enet/compress.c:90-105 | the recursive loop halves the counts of a subtree, recomputes its sums and returns its new total |
| RangeCoder.RangeCoder.ContextRescale | src/enet/compress.c:107-112 | ENET_CONTEXT_RESCALE: the context's counts, escapes and total |
| RangeCoder.RangeCoder.UpdateContext | src/enet/compress.c:306-315 | what follows a coded symbol leaves the context with the table the model has learnt |
| RangeCoder.RangeCoder.EncodeIn | src/enet/compress.c:293-316 | one context of the encoder's walk: the bytes of the symbol or escape, whether the walk stops, and the model that has learnt the byte |
| RangeCoder.RangeCoder.EncodeByte | src/enet/compress.c:286-336 | one byte of compress: the bytes emitted are those of the model's slots, and array, predicted and order represent the model after the byte |
| RangeCoder.RangeCoder.Compress | src/enet/compress.c:246-342 | enet_range_coder_compress on an array: the output is that of the specification for the concatenated buffers, of which PpmCounts has the tables, the slots and the bytes in numbers, and 0 is returned just if there is no input or no room |
| RangeCoder.RangeCoder.ReadContext | src/enet/compress.c:536-566 | one context of the decoder's walk: skipped, escaped, a symbol read and learnt, or a code beyond the total |
| RangeCoder.RangeCoder.SearchByte | src/enet/compress.c:529-596 | the decoder's walk down finds what the specification's descent finds |
| RangeCoder.RangeCoder.PatchContexts | src/enet/compress.c:598-615 | the decoder's walk up learns the byte in the contexts above and links the entries; predicted names the longer history |
| RangeCoder.RangeCoder.NextHistory | src/enet/compress.c:331-337 | the history moves on by one byte, and the model starts over when fewer than three symbols are free |
| RangeCoder.RangeCoder.Decompress | src/enet/compress.c:498-627 | enet_range_coder_decompress on an array refines the specification of the round trip |
| ReliableRuns.ReliableDelivery | src/enet/peer.c:783-820 | in every run, under loss, duplication and reordering of datagrams, those with reliable packets within their lifetime and the others without any, the reliable packets dispatched are the first ones that enet_peer_send accepted, in order, each once, with their bytes |
| DeliveryTheorems.StreamDelivery | src/enet/peer.c:700-820 | in every run in which unreliable packets are timely as well, reliable and unreliable packets together are dispatched in the sender's order, none twice, with their bytes, and a packet only after every reliable packet sent before it |
| ReliableRuns.WindowSafety | src/enet/protocol.c:1406-1424 | whatever was ever sent lies at most seven windows ahead of the receiver's window, and every acknowledged command was dispatched or waits in the receiver's queue |
| ReliableRuns.AllAcknowledgedIsAllDelivered | src/enet/peer.c:587-616 | when nothing is left to send or to acknowledge, every reliable packet ever accepted has been dispatched |
| DeliveryTheorems.AcknowledgedIsSecured | src/enet/peer.c:587-602 | a command is refused an acknowledgement just where the handlers discarded it as too far ahead: what is acknowledged is in the receiver's hands |
| DeliveryTheorems.AckFindsItsCommand | src/enet/protocol.c:197-233 | within a whole turn of the number space the 16 bits of an acknowledged number find the command that was acknowledged, not another one |
| DeliveryTheorems.NotFull | src/enet/protocol.c:1406-1409 | if the count of a whole window falls short of its size, one of its commands is acknowledged |
| DeliveryTheorems.FirstSendInReach | src/enet/protocol.c:1406-1424 | the test on window boundaries keeps the sender less than eight windows ahead of the receiver and of everything unacknowledged |
| DeliveryTheorems.DispatchIdle | src/enet/peer.c:783-820 | a dispatch leaves nothing at the front of the queue whose turn it is |
| DeliveryTheorems.RunKeeps | src/enet/protocol.c:1386-1565 | the joint invariant of sender, network and receiver holds in every state of every run |
| DeliveryModel.NewPacketFollows | src/enet/peer.c:619-656 | every packet that enet_peer_send numbers comes after all earlier ones in the channel's order |
| DeliveryModel.FragmentsPartition | src/enet/peer.c:146-176 | the fragments of a packet cut its data into consecutive pieces, none empty, that join to the whole |
| DeliveryModel.WindowStarts | src/enet/protocol.c:1406-1411 | only the first number of a window is tested, and the window before it, modulo the windows, is the one whose count is read |
| DeliveryModel.OldestWindow | src/enet/protocol.c:1408-1411 | a command seven windows back lies in the last of the ten windows that the mask covers |
| DeliveryProof.SearchReliableFinds | src/enet/peer.c:856-882 | the backward walk finds the entry with the number, or the place that keeps the queue in the order of the unbounded numbers |
| DeliveryProof.SearchUnreliableFinds | src/enet/peer.c:893-928 | the same for pairs of reliable and unreliable number |
| DeliveryProof.ReadyAdvances | src/enet/peer.c:783-820 | what leaves the queue of reliable commands are the complete packets that come next, and the channel's number becomes that of the last one |
| DeliveryProof.DispatchUnreliableKeeps | src/enet/peer.c:700-780 | the walk moves only packets that are due, in order, and what it leaves still waits for a later reliable number or for fragments |
| DeliveryProof.FragmentAdded | src/enet/protocol.c:614-625 | a fragment not received before puts its own bytes in place: fragmentsRemaining stays the number of unset bits and the bytes of received fragments stay those of the packet |
| DeliveryProof.CompleteEntry | src/enet/protocol.c:614-631 | when no fragment remains, the reassembled bytes are the packet's |
| DeliveryProof.BeyondIsLater | src/enet/peer.c:715-760 | a packet beyond the channel's reliable and unreliable number was sent after every packet up to them |
| DeliveryInvariant.ReceiveReliableKeeps | src/enet/protocol.c:435-456 | SEND_RELIABLE keeps the receiver's invariant; the command ends up dispatched, queued, or refused as too far ahead |
| DeliveryInvariant.ReceiveFragmentKeeps | src/enet/protocol.c:525-632 | SEND_FRAGMENT does too, for any order and repetition of the fragments |
| DeliveryInvariant.ReceiveUnreliableKeeps | src/enet/protocol.c:503-523 | SEND_UNRELIABLE does too |
| DeliveryInvariant.ReceiveUnreliableFragmentKeeps | src/enet/protocol.c:634-750 | SEND_UNRELIABLE_FRAGMENT does too |
| DeliveryInvariant.DispatchReliableKeeps | src/enet/peer.c:783-820 | a dispatch keeps the receiver's invariant and the order of what was dispatched |
| DeliveryInvariant.BehindIsDone | src/enet/protocol.c:549-556 | a fragment whose start number is not beyond the channel's number belongs to a packet that was dispatched |
| SequenceNumbers.AheadOf | src/enet/peer.c:837-847 | a number less than one turn of the number space ahead is placed exactly by its 16 bits: its window, the window test, the test for an acknowledgement |
| SequenceNumbers.WindowTest | src/enet/peer.c:837-847 | the window test in full: it asks for the distance of the two windows modulo sixteen, and in the same window for the order of the 16-bit numbers |
| SequenceNumbers.TestsInNumbers | src/enet/peer.c:837-847 | the two tests in numbers: a command is taken in if its window of 4096 numbers is one to six ahead modulo 16, or the same and its number no smaller, and refused an acknowledgement if it is seven or eight ahead |
| SequenceNumbers.BehindTest | src/enet/peer.c:837-847 | a number behind passes the window test if and only if its window lies ten to fifteen windows back modulo sixteen, or a multiple of sixteen back with a number that is no smaller |
| SequenceNumbers.BehindOf | src/enet/peer.c:837-847 | a number behind, by at most nine windows, never passes the window test |
| SequenceNumbers.SameAhead | src/enet/peer.c:863-881 | the order of two such numbers is the order of their distances |
| DatagramLifetime.OldestIsExact | src/enet/peer.c:837-847 | k windows are a safe lifetime for what the receiver has had already if and only if k is at most nine |
| DatagramLifetime.FarthestIsExact | src/enet/peer.c:837-847 | k windows beyond the newest command sent are placed rightly by the receiver if and only if k is at most eight |
| DatagramLifetime.AckLifetimeIsExact | src/enet/protocol.c:204-231 | an acknowledgement finds no other command with its 16 bits before k more were sent if and only if k is at most the number space |
| DatagramLifetime.UndispatchedIsFresh | src/enet/protocol.c:549-556 | in every run the assumed lifetime never excludes a reliable packet that was not dispatched yet, only repetitions |
| DatagramLifetime.OldFragment | src/enet/protocol.c:549-631 | the fragment handler queues a fragment of an old packet as the first one of a new packet if and only if its window lies ten or more windows back modulo sixteen, or sixteen with a greater number; otherwise it discards it |
| DatagramLifetime.StaleFragmentIsTakenForNew | src/enet/protocol.c:549-631 | the case: the first of 0x7000 fragments, repeated when 0x7FFF more commands were received, is queued and acknowledged |
| DatagramLifetime.NewPacketIsLost | src/enet/peer.c:850-883 | what follows from it: when the numbers come round, the new packet with that number is discarded and acknowledged, and so lost |
| DatagramLifetime.FarAheadIsTakenForCurrent | src/enet/peer.c:886-928 | the case for unreliable packets: one that names a reliable number a whole turn ahead is dispatched at once, in front of the reliable packets sent before it |
| ReliableRuns.UnreliableStep | src/enet/protocol.c:503-750 | a datagram with an unreliable packet, however late or early, changes nothing of the reliable half of the receiver: its number, its queue, the reliable packets dispatched |
| ReliableRuns.ReliableStep | src/enet/protocol.c:435-634 | any other step is the same step without the unreliable packets |
| DatagramLifetime.UnreliableOvertakes | src/enet/peer.c:886-928 | the case as a run from enet_peer_send on: behind a packet of a whole turn of fragments, none of them sent yet, an unreliable packet is accepted and dispatched at once |
| LargePackets.TooLongNeverArrives | src/enet/protocol.c:1400-1441 | in no run does a packet arrive that reaches into the eighth window behind the number before it, or has more data in the seventh or in one command than may be in flight, nor any reliable packet accepted after it |
| LargePackets.NotAllSent | src/enet/protocol.c:1400-1441 | why: as long as it has not arrived, what it has in the seventh window is not acknowledged, so that all of it cannot be in flight |
| LargePackets.BoundedKeeps | src/enet/protocol.c:1425-1441 | in every state the data of all unacknowledged commands keeps within the limit on data in flight |
| LargePackets.ByFragments | src/enet/peer.c:115-125 | eight windows of fragments are always too many, six never |
| LargePackets.SmallFragments | src/enet/protocol.c:1425-1441 | the case between: 28800 fragments of 548 bytes, as with an mtu of 576, are less than eight windows and less than the default limit on a packet, and too many for the largest window size |
| Progress.ArrivalIsExact | src/enet/protocol.c:1386-1552 | in every state of every run in which what the sender keeps can be repeated in time, there are steps to the arrival of a reliable packet if and only if it has arrived, or none is too long of those up to it that have not |
| Progress.EverythingCanArrive | src/enet/protocol.c:1386-1552 | if none is too long, there are steps from every such state to one in which everything accepted is dispatched and acknowledged |
| Progress.ShortIsRetrievable | src/enet/protocol.c:1333-1384 | every state of every run is such a state if no packet has numbers in more than four windows |
| Progress.WindowAllows | src/enet/protocol.c:1401-1411 | on the way the window test lets every next command go, although those of the seventh window are not acknowledged |
| Progress.DataAllows | src/enet/protocol.c:1425-1441 | and the limit on data in flight leaves room for it |
| Progress.CatchUp | src/enet/protocol.c:435-634 | whatever was sent can be repeated until the receiver has all of it |
| Progress.OneAcknowledged | src/enet/protocol.c:838-935 | a command that the receiver has and that is not too far ahead can be repeated, acknowledged and released |
| Progress.Repeated | src/enet/protocol.c:435-634 | a repetition of a command that the receiver has changes nothing |
| Progress.SendUpTo | src/enet/protocol.c:1386-1552 | once all is acknowledged that can be, the next commands can be sent, delivered and acknowledged up to any number |
| Retransmissions.SpanIsExact | src/enet/protocol.c:549-556 | the first number of a dispatched packet is told from a new one for as long as the sender keeps a command of the packet at most k windows behind it if and only if k is at most three |
| Retransmissions.RetransmissionIsTakenForNew | src/enet/protocol.c:549-631 | the case as a state reached from the start: the sender repeats the last fragment of a packet dispatched long ago, and the receiver queues it as the first of a new packet and acknowledges it |
| UnreliableDrops.RemovedIsExact | src/enet/peer.c:700-781 | an unreliable packet that leaves the queue in a step without being dispatched can be dispatched later if and only if no later packet has been |
| UnreliableDrops.UnreliableArrivalIsExact | src/enet/peer.c:886-928 | so can every unreliable packet in front of which all reliable ones were dispatched |
| UnreliableDrops.OvertakenIsLost | src/enet/peer.c:700-781 | along all steps, a packet is not dispatched after a later one |
| UnreliableDrops.ReceiveStill | src/enet/peer.c:739-748 | no handler removes an entry that waits for a later reliable number |
| UnreliableDrops.DueMoves | src/enet/peer.c:714-724 | the walk dispatches every complete packet whose turn it is |
| UnreliableDrops.TwoAreKept | src/enet/peer.c:714-737 | of the incomplete packets whose turn it is the walk keeps the last two and the one just queued, and dispatches nothing |
| UnreliableDrops.ThirdRemovesFirst | src/enet/peer.c:714-780 | the case as a run: the first fragments of three packets arrive, the first packet is removed with nothing dispatched, and can still be dispatched |
| IncomingChannel.QueuedStays | src/enet/peer.c:779 | the dispatch that queueing a fragment's packet causes does not remove the entry that the handler still points to |
| IncomingChannel.NewEntryStays | src/enet/peer.c:784-800 | a packet with missing fragments is not dispatched by the walk that queueing it causes |
| IncomingChannel.QueueFragmentSteps | src/enet/protocol.c:599-631 | a first fragment is queued with its packet and then taken at the place where the entry stands after the dispatch |
| IncomingChannel.QueueUnreliableSteps | src/enet/protocol.c:717-747 | the same for unreliable fragments |
| ChannelReceiver.Receiver.DispatchUnreliableCommands | src/enet/peer.c:700-780 | the in-place walk with its start, current and dropped positions and the queued command does what the function on sequences does |
| ChannelReceiver.Receiver.DispatchReliableCommands | src/enet/peer.c:783-820 | the same for reliable commands |
| ChannelReceiver.Receiver.RemoveUnreliable | src/enet/peer.c:270-299 | enet_peer_remove_incoming_commands removes the commands up to the end except the one still in use |
| ChannelReceiver.Receiver.HandleReliable | src/enet/protocol.c:435-456 | the handler in place refines the one the theorems are about |
| ChannelReceiver.Receiver.HandleFragment | src/enet/protocol.c:525-632 | the same for fragments |
| ChannelReceiver.Receiver.HandleUnreliable | src/enet/protocol.c:503-523 | the same for unreliable commands |
| ChannelReceiver.Receiver.HandleUnreliableFragment | src/enet/protocol.c:634-750 | the same for unreliable fragments |
| ChannelReceiver.Receiver.Handle | src/enet/peer.c:587-602 | one command of a datagram: channel, dispatched packets, error return and acknowledgement |
| IncomingChannel.RefusedIs | src/enet/protocol.c:435-640 | which commands the handlers refuse, so that the datagram is given up: too much data, no room for a new one, a fragment whose count is above 1048576 or whose number, offset, length or total does not fit, or which contradicts the packet queued under its number; a refusal changes nothing |
| ChannelReceiver.WalkEnds | src/enet/peer.c:764-779 | the state of the in-place walk at its end is the specification's result, and the queued command's position is known |
| ReliableWindows.MustWaitIs | src/enet/protocol.c:1406-1411 | the test on counters and mask bits is the test on the unacknowledged commands themselves |
| ReliableWindows.FirstSendCounts | src/enet/protocol.c:1461-1465 | a first sending keeps reliableWindows the number of unacknowledged commands of each window and the bits set just for windows with some |
| ReliableWindows.AcknowledgeCounts | src/enet/protocol.c:238-248 | so does an acknowledgement |
| OutgoingLists.FirstSendOk | src/enet/protocol.c:1461-1465 | the command first sent carries the channel's next number, and counters, numbers in use and numbers waiting agree afterwards |
| OutgoingLists.AcknowledgedOk | src/enet/protocol.c:238-248 | they agree after an acknowledgement |
| OutgoingLists.NotWrapped | src/enet/protocol.c:1406-1411 | a channel that need not wait has nothing in use seven windows back or more |
| OutgoingLists.FewInFlight | src/enet/protocol.c:1461-1465 | no counter of a window ever overflows its 16 bits |
| ChannelSender.NewPacketIs | src/enet/peer.c:113-131 | which kind a packet is sent as and which numbers it gets, by its flags, its length and the channel's unreliable number |
| ChannelSender.Sender.Send | src/enet/peer.c:99-216 | enet_peer_send queues exactly the pieces of the packet with its numbers, or one unsequenced command with the next group, or fails and changes nothing for a peer, channel, length or number of fragments that it refuses |
| ChannelSender.Cut | src/enet/peer.c:137-176 | the loop with its shrinking last fragment yields the packet's fragments in order |
| ChannelSender.Sender.Setup | src/enet/peer.c:618-678 | the command gets the next number of its channel, of the peer if it belongs to no channel, or the next group if it is unsequenced, and goes to the end of the list |
| ChannelSender.Sender.CheckOutgoing | src/enet/protocol.c:1386-1552 | one pass: every command considered goes into the datagram, stays because it or one before it is blocked by a window or by the data in flight, or is an unreliable one that the throttle drops; nothing stays but behind a first command that is held back itself, and behind that no reliable packet goes; order is kept, the datagram holds just what was sent, the pass ends at a command that finds no room, limits hold, each channel's numbers are first sent one by one, and all it has in use keeps within the limit on data in flight; it is broken off just where a drop takes what it should not |
| ChannelSender.RoomTest | src/enet/protocol.c:1445-1450 | the source's test for room, which compares 16 bits, says just that: 32 commands, 65 buffers, or more bytes than the mtu |
| ChannelSender.FragmentFillsDatagram | src/enet/peer.c:111-115 | a fragment as enet_peer_send cuts it finds room in an empty datagram, and a whole one fills it to the last byte |
| ChannelSender.HeldBack | src/enet/protocol.c:1404-1440 | the first command that a pass leaves is a reliable packet that is held back itself, by the test at the start of its window or by the data in flight |
| ChannelSender.WrapsIn | src/enet/protocol.c:1407-1415 | the window test in numbers: at the start of a window it holds back if the 4096 numbers of the window before are all unacknowledged, or any in that window or the nine behind it modulo 16 is |
| ChannelSender.DropsAre | src/enet/protocol.c:1489-1494 | a command is dropped just if it is the first piece of an unreliable packet and the counter, 7 more at each of them modulo 32, is then beyond the throttle |
| ChannelSender.ThrottleShare | src/enet/protocol.c:1489-1494 | of any 32 unreliable packets in a row, one more goes than the throttle says |
| ChannelSender.SendingIs | src/enet/protocol.c:1467-1481 | what a sending changes of a command, field by field |
| ChannelSender.Sender.Weigh | src/enet/protocol.c:1401-1442 | whether a command stays, and what that says about the window and the data in flight |
| ChannelSender.Sender.SendReliable | src/enet/protocol.c:1459-1487 | the reliable command moves to the sent ones with its timeout; first sendings are counted |
| ChannelSender.Sender.DropUnreliable | src/enet/protocol.c:1496-1518 | the dropped command goes with those of the same two numbers that follow it at once, and no further, up to one that has no packet; the sender's invariant holds afterwards if and only if no reliable command is among them |
| ChannelSender.TakenForUnsequenced | src/enet/protocol.c:1496-1518 | a reliable command is dropped with the one in front if and only if that is unsequenced and the reliable one's 16-bit number is 0 again, with nothing but the numbers 0, 0 between them |
| ChannelSender.NoPacketToDrop | src/enet/protocol.c:1498-1518 | the loop comes upon a command without a packet, whose packet it uses, if and only if the one dropped is unsequenced and the other's 16-bit number is 0 again, with nothing but the numbers 0, 0 between them |
| ChannelSender.DropsReliable | src/enet/protocol.c:1489-1518 | the case of a pass: an unsequenced packet and the reliable one with number 65536 behind it are dropped together, the number is in neither list afterwards, and the next packet has number 65537 |
| ChannelSender.FindsNoPacket | src/enet/protocol.c:1489-1518 | the case of a ping: the pass drops the unsequenced packet in front of it and stops at the ping, which has no packet |
| ChannelSender.BreaksAtOnce | src/enet/protocol.c:1489-1518 | a pass whose throttle drops the first command, when that takes what it should not, is broken off there |
| ChannelSender.ShelteredIsSafe | src/enet/protocol.c:1496-1518 | a list in which no command has the numbers of an unreliable one in front of it, unless it is unreliable data as well, is safe from this |
| ChannelSender.ShelteredBeforeWrap | src/enet/peer.c:625-656 | before a reliable number is 0 again every list is safe from this |
| ChannelSender.Sender.RemoveSentReliable | src/enet/protocol.c:196-283 | the command with the acknowledged number and channel leaves its list if it was ever sent and not yet acknowledged; the early exit at the first command never sent misses nothing |
| ChannelSender.Sender.CheckTimeouts | src/enet/protocol.c:1333-1384 | timed-out commands go back before the others in their order with doubled timeouts; the peer is given up at the first one that is late enough |
| ChannelSender.TimesNear | src/enet/include/enet/time.h:8-15 | two times less than a day apart are ordered and subtracted rightly, also around the wrap of the clock |
| ChannelSender.TimeoutsAre | src/enet/protocol.c:1348-1370 | a command sent less than a day ago is timed out just when its timeout has passed, which is doubled the next time |
| ChannelSender.SentFirstInserted | src/enet/protocol.c:1370 | retransmitted commands stand before the reliable ones never sent |
| ChannelSender.NextNumber | src/enet/protocol.c:1400-1424 | the first reliable command that waits on a channel carries the number after the last one sent |
| ChannelSender.PassIsSteps | src/enet/protocol.c:1386-1552 | what a pass sends first is a run of first sendings of the protocol's state machine, within the limit of its link |
| ChannelSender.LimitIsNegotiated | src/enet/protocol.c:372-398 | a link as it is negotiated keeps that limit within the one that the state machine allows |
| ChannelSender.AllInFlight | src/enet/protocol.c:1454-1487 | when a command is first sent, all that its channel has in use is in flight: the data of both lists is what reliableDataInTransit counts |
| ChannelSender.RemovalIsStep | src/enet/protocol.c:196-283 | a removal is an acknowledgement step of the state machine |
| UnsequencedWindow.QueuedAtMostOnce | src/enet/protocol.c:474-498 | in every run with datagrams at most 0x8000 groups old no unsequenced group is queued twice, and the window's first group stays a multiple of its size |
| UnsequencedWindow.QueuedIs | src/enet/protocol.c:474-497 | in every such run a group that arrives is queued if and only if it is not before the window reached, lies less than 32768 ahead of it modulo the number space, has not the 16 bits of a group queued since the window moved, and there is room |
| UnsequencedWindow.ReceiveIs | src/enet/protocol.c:474-497 | one group in numbers: when it is queued, where the window moves, and which bits are set afterwards |
| UnsequencedWindow.OldIsRefused | src/enet/protocol.c:477-481 | a group before the window is told from a new one just when it is at most half the number space older, modulo the number space |
| UnsequencedWindow.Window.Handle | src/enet/protocol.c:474-498 | the bitmap in place: window move, duplicate test, queueing and error return |
| BandwidthThrottle.Host.BandwidthThrottle | src/enet/host.c:326-489 | both stages end; the outgoing shares and the incoming level are as described below, and unless the clock wrapped nothing but rounding is left over; the counters and throttle limits stay valid, and nothing happens before the interval is over |
| BandwidthThrottle.Host.LimitOutgoing | src/enet/host.c:348-432 | stage one in closed form: just the peers that exceed their bandwidth at the first throttle are fixed at their own share, all others get the throttle for what is left and can take it, the sum keeps within the host's bandwidth, and packetThrottle <= packetThrottleLimit <= 32 |
| BandwidthThrottle.AllTreated | src/enet/host.c:384-431 | every peer after stage one, field by field: those that take part start their data over, and have the limit of their own share or the common one, and a throttle that is the smaller of the limit and what it was |
| BandwidthThrottle.FirstThrottleIs | src/enet/host.c:353-371 | the throttle at which the peers are tried is the number of 32nds of their data that the bandwidth allows |
| BandwidthThrottle.LevelInNumbers | src/enet/host.c:404-431 | the common throttle is the same for what the fixed peers leave of bandwidth and data |
| BandwidthThrottle.Host.FixExceeding | src/enet/host.c:373-406 | one pass fixes just the peers that exceed at its throttle, never spends more than there is, and makes progress or changes nothing |
| BandwidthThrottle.ThrottleFits | src/enet/host.c:368-371 | the throttle keeps the data of the open peers within the bandwidth, and no higher one would for the data it is computed from; there is no division by zero |
| BandwidthThrottle.ThrottleFalls | src/enet/host.c:404-405 | fixing peers never raises the common throttle, so no later pass fixes a peer that the first did not |
| BandwidthThrottle.FixKeeps | src/enet/host.c:384-405 | fixing a peer keeps the balance of bandwidth and data and never makes either negative |
| BandwidthThrottle.PassKeeps | src/enet/host.c:364-407 | a further pass fixes only peers that exceeded before |
| BandwidthThrottle.Conserved | src/enet/host.c:404-431 | fixed shares and throttled data together stay within the bandwidth |
| BandwidthThrottle.OwnLimitFits | src/enet/host.c:388-392 | a fixed peer's throttle limit lies between 1 and 32 |
| BandwidthThrottle.Host.LimitIncoming | src/enet/host.c:434-488 | stage two: every connected peer is told its own bandwidth or the common level, whichever is less; granted bandwidth and levels stay within the host's, and if all peers take part no more is left over than rounding takes |
| BandwidthThrottle.OutgoingTimely | src/enet/host.c:348-432 | if no peer is marked as served later than the last throttling, then at a later time nobody is fixed before stage one, and all connected peers take part in stage two |
| BandwidthThrottle.NothingWasted | src/enet/host.c:434-468 | where all connected peers take part in stage two, less bandwidth is left over than there are peers at the common level |
| BandwidthThrottle.LevelRises | src/enet/host.c:445-468 | the level never sinks from pass to pass, and shares plus remaining peers times the level stay within the bandwidth |
| BandwidthThrottle.LevelIsZero | src/enet/host.c:448 | the level, of which 0 means unlimited to the peer that is told, is 0 if and only if the host has less bandwidth than there are peers asking for some |
| BandwidthThrottle.Host.Announce | src/enet/host.c:470-487 | what each connected peer is told |
| BandwidthThrottle.AllTold | src/enet/host.c:470-487 | if nobody was served at this time before, each connected peer is told the level, or its own bandwidth if that is less, in the order of the peers |
| BandwidthThrottle.Host.ChangeState | src/enet/protocol.c:35-44 | connectedPeers and bandwidthLimitedPeers count the connected and the limited peers through every change of state |
| BandwidthThrottle.Host.Reset | src/enet/peer.c:373-434 | the counters stay right through enet_peer_reset |
| BandwidthThrottle.Host.HandleBandwidthLimit | src/enet/protocol.c:761-793 | the counter of limited peers follows a peer's new bandwidth; a peer that is not connected is refused |
| BandwidthThrottle.Host.PeerThrottle | src/enet/peer.c:61-89 | the throttle moves with the round trip time and never exceeds its limit |
| Crc32.Crc32 | src/enet/packet.c:142-163 | for every byte string and every split into buffers the result is the bit-serial reflected CRC-32 of section 8 of RFC 1952, before the final byte swap |
| Crc32.LookUp | src/enet/packet.c:154-157 | one table look-up is eight steps of the bit-serial checksum |
| Crc32.ReflectCrc | src/enet/packet.c:104-116 | reflect_crc reverses the low bits of a word, also of a negative one |
| Crc32.ComputeEntry | src/enet/packet.c:123-137 | the entry computed most significant bit first and reflected is that of the reflected polynomial |
| Crc32.InitializeCrc32 | src/enet/packet.c:118-140 | all 256 entries of the table |
| Crc32.TableStepMirrors | src/enet/packet.c:128-134 | a step on the reversed word is the reverse of a step |
| Crc32.StepsSplit | src/enet/packet.c:154-157 | n steps depend on the lowest n bits only and shift the others |
| Crc32.PolynomialMirrored | src/enet/packet.c:131 | 0x04c11db7 is the mirror image of 0xedb88320 |
| Crc32.PolynomialIs | src/enet/packet.c:131 | the two words have just the powers 26, 23, 22, 16, 12, 11, 10, 8, 7, 5, 4, 2, 1 and 0 of the standard's polynomial |
| Crc32.FeedIs | src/enet/packet.c:154-157 | one step of the register, bit by bit |
| Crc32.MessageBitIs | src/enet/packet.c:154-157 | the bits of the message are those of its bytes in order, the lowest first |
| Crc32.ChecksumIs | src/enet/packet.c:145-163 | the register starts with ones, takes in these bits one after another, and is complemented at the end |
| WorldStateBroadcast.Broadcast.Build | src/fpsgame/server.cpp:1461-1503 | in each tick every client that is not a bot is sent, out of one buffer of twice the reckoned size, every other client's and their bots' positions and then messages, each block once and in order, each kind on its channel, and nothing of its own; the chunks are packed greedily to 100 bytes less than the mtu, each packet is one client's part of one chunk and no longer than that unless the chunk is one block, and what was said is cleared |
| WorldStateBroadcast.Broadcast.SendChunk | src/fpsgame/server.cpp:1390-1410 | a chunk is doubled and sent to all that are not bots, and the next one begins behind it |
| WorldStateBroadcast.Broadcast.SendToAll | src/fpsgame/server.cpp:1396-1408 | the bytes selected by a client's wsdata and wslen are those of the others' blocks, in one packet for each client; each packet taken is counted |
| WorldStateBroadcast.Broadcast.AddPosition | src/fpsgame/server.cpp:1412-1422 | the position is said once, in its owner's name, and there is room for it twice |
| WorldStateBroadcast.Broadcast.AddMessages | src/fpsgame/server.cpp:1446-1459 | the same for messages with their header |
| WorldStateBroadcast.Broadcast.Turn | src/fpsgame/server.cpp:1482-1488 | a client speaks for itself and for its bots |
| WorldStateBroadcast.Rotated | src/fpsgame/server.cpp:1400-1402 | behind a client's own bytes the doubled chunk holds the later blocks followed by the earlier ones in one piece |
| WorldStateBroadcast.ChunkSlice | src/fpsgame/server.cpp:1400-1402 | so the slice a client is sent lies in the buffer and holds just the others' blocks |
| WorldStateBroadcast.StillMarked | src/fpsgame/server.cpp:1416-1421 | wsdata and wslen of every client mark its own bytes in the chunk, also after another block |
| WorldStateBroadcast.CompleteMore | src/fpsgame/server.cpp:1390-1410 | a chunk sent keeps what a client was sent complete: of every other client all it said, in order |
| WorldStateBroadcast.CompleteIsExact | src/fpsgame/server.cpp:1390-1410 | what a client was sent and what it said itself are together, each once, all that was said |
| WorldStateBroadcast.Header | src/fpsgame/server.cpp:1451-1453 | the header takes at most the ten bytes that the reckoning allows for it |
| WorldStateBroadcast.PackIs | src/fpsgame/server.cpp:1415-1449 | greedy packing in full: the chunks hold all blocks in order, each block but the first of a chunk fits as it is reckoned, and the first of the next did not |
| WorldStateBroadcast.PackedFits | src/fpsgame/server.cpp:1415-1449 | so a chunk is longer than the limit only if it is a single block |
| WorldStateBroadcast.EqualBlocks | src/fpsgame/server.cpp:1415 | blocks of one length: as many as fit into each chunk but the last, 26 of 50 bytes within 1300 |
| WorldStateBroadcast.FramedReads | src/shared/tools.cpp:76-133 | a client's framed messages are read back as N_CLIENT, its number, the length and the messages, with nothing else taken from what follows |
| WorldStateBroadcast.UintReads | src/shared/tools.cpp:97-133 | an unsigned number is read as it was written if and only if it has at most 28 bits |
| WorldStateLifetime.WorldStates.Clean | src/fpsgame/server.cpp:1365-1379 | a buffer is freed just when the packet freed was the last one that shares it |
| WorldStateLifetime.WorldStates.Keep | src/fpsgame/server.cpp:1499-1502 | a buffer is kept just if a packet shares it, and then the books hold with it |
| WorldStateLifetime.WorldStates.Tick | src/fpsgame/server.cpp:1448-1503 | buildworldstate as a whole: the buffer of a tick is kept just if a connection took a packet, with as many uses as packets that lie in it |
| WorldStateLifetime.HandedOut | src/fpsgame/server.cpp:1396-1408 | the packets taken out of a broadcast all lie in its buffer and are as many as it counted |
| WorldStateLifetime.LastReleased | src/fpsgame/server.cpp:1370-1376 | freeing the last packet and its buffer keeps the books of all others |
| WorldStateLifetime.StillShared | src/fpsgame/server.cpp:1370-1377 | freeing one of several packets does too |
| BotAssignment.BotManager.CheckAi | src/fpsgame/aiman.h:227-237 | afterwards, in a mode with bots, every bot that had an owner has one, the others are gone, the eligible players share them with a difference of at most one, by moves of reassignai, the lists of the other players are untouched, and a bot that has moved will be announced by the next call; in other modes there are no bots |
| BotAssignment.BotManager.Rebalance | src/fpsgame/aiman.h:234 | the loop ends with the lists of the eligible players balanced, by moves of reassignai one after another, and changes nothing else |
| BotAssignment.BotManager.ReassignAi | src/fpsgame/aiman.h:194-213 | the last bot moves from the first longest to the first shortest list if they differ by more than one; otherwise nothing changes and the lists are balanced |
| BotAssignment.MoveShrinks | src/fpsgame/aiman.h:204-210 | such a move lowers the sum of the squares of the lengths |
| BotAssignment.BotManager.ShiftAi | src/fpsgame/aiman.h:178-186 | the bot leaves its owner's list and enters that of its new one; lists and owners agree afterwards if and only if the bot is not given to the player that owns it already |
| BotAssignment.ShiftToItsOwner | src/fpsgame/aiman.h:182-184 | why callers must not: in every state, a bot given to its owner is lost from the owner's list |
| BotAssignment.BotManager.RemoveAi | src/fpsgame/aiman.h:188-192 | the bots of a player that leaves go, from the last to the first, each to whoever of the other eligible players has the fewest at that moment, or lose their owner; no other bot is touched |
| BotAssignment.BotManager.RemoveLast | src/fpsgame/aiman.h:191 | one turn: the last bot goes to the choice of findaiclient at that moment |
| BotAssignment.BotManager.AddAi | src/fpsgame/aiman.h:83-133 | a bot is added just if fewer than the limit, 32 at most, have owners; it takes the first slot that is empty or without an owner, and the least loaded player as its owner |
| BotAssignment.BotManager.DeleteAi | src/fpsgame/aiman.h:135-150 | the bot leaves its slot and its owner's list, and nothing else changes |
| BotAssignment.BotManager.ReinitAll | src/fpsgame/aiman.h:162-176 | bots without an owner go, the others are announced, lists stay |
| BotAssignment.BotManager.ClearAi | src/fpsgame/aiman.h:222-225 | no bot is left in any slot or list |
| BotAssignment.BotManager.FindAiClient | src/fpsgame/aiman.h:71-81 | the first of the eligible players with the fewest bots, or none if there is no eligible one |
| QuotedStrings.RoundTrip | src/engine/command.cpp:891-901 | cutstring applied to escapestring(s) and any text returns s and stops behind the closing quote if and only if s has no carriage return |
| QuotedStrings.CutReads | src/engine/command.cpp:752-788 | what is read back in every case: the string up to its first carriage return, and where the reader stops |
| QuotedStrings.UnescapeEscape | src/engine/command.cpp:767-788 | unescaping undoes escaping, whatever follows |
| QuotedStrings.WrittenAs | src/engine/command.cpp:2398-2404 | what each character of a string is written as: ^n, ^t, ^f, ^ and a quote, ^^, or itself |
| QuotedStrings.ReadAs | src/engine/command.cpp:770-786 | what is read for each character behind a caret, and without one; a caret at the end is dropped |
| QuotedStrings.EndsAt | src/engine/command.cpp:752-765 | a quoted string ends at a quote, the end of a line or of the text, and passes over none of these but behind a caret |
| QuotedStrings.EndPasses | src/engine/command.cpp:752-765 | the scan for the end passes over an escaped string without carriage return |
| QuotedStrings.EscapeString | src/engine/command.cpp:2391-2410 | the loop writes the escaped string between quotes |
| QuotedStrings.ParseString | src/engine/command.cpp:752-765 | the loop finds where the quoted string ends |
| QuotedStrings.UnescapeString | src/engine/command.cpp:767-788 | the loop writes the unescaped characters, no more than it reads |
| QuotedStrings.CutString | src/engine/command.cpp:891-901 | both together, and the step over the closing quote |
| CommandFrames.Machine.CallAlias | src/engine/command.cpp:2072-2097 | a call of any alias with any body, nested and recursive, is a call as AliasCalls defines it: the body runs with the call's arguments, and its effect on the aliases is the only one; the value and stack of every argument, the chain of frames, the flags and numargs are as they were, and no running block is freed or changed |
| CommandFrames.Machine.EnterFrame | src/engine/command.cpp:2073-2084 | the beginning of a call: the code that runs sees its own arguments, the aliases, and the flag of an overridden alias |
| CommandFrames.ScopeEntered | src/engine/command.cpp:2073-2081 | bindings on stacks and the mask of used arguments represent the arguments of the call and no others |
| CommandFrames.BodyIs | src/engine/command.cpp:2074-2084 | what runs is the value that the identifier has when the arguments are bound, of an argument that the call binds the new one |
| AliasCalls.InOrder | src/engine/command.cpp:1766-1781 | code that is cut in two runs as its first half and then its second |
| AliasCalls.SetsInOrder | src/engine/command.cpp:2072-2097 | an alias that sets two others, called at any depth: both are set, the second last, with the flag of an overridden alias; at depth 255 nothing happens |
| AliasCalls.RedefinedWhileRunning | src/engine/command.cpp:2082-2087 | an alias that redefines itself runs to the end as it was |
| AliasCalls.ArgumentRuns | src/engine/command.cpp:2107-2112 | an alias that calls one of its arguments runs what the call was given there, and nothing if it was given less |
| AliasCalls.ArgumentCall | src/engine/command.cpp:2074-2084 | a called argument that the call itself binds runs its new value |
| AliasCalls.Endless | src/engine/command.cpp:2072-2097 | an alias that does nothing but call itself ends, and leaves all as it was |
| CommandFrames.Machine.RunCode | src/engine/command.cpp:1766-1781 | the instructions run in order, as AliasCalls has it, unless 255 pieces of code are running; code run in a frame binds at most new arguments of that frame, and the block that runs is kept until its end even if the alias is redefined meanwhile |
| CommandFrames.Machine.Execute | src/engine/command.cpp:1871-1895 | each instruction does to the frame on top and to the aliases what AliasCalls says |
| CommandFrames.Machine.TakeCode | src/engine/command.cpp:2082-2084 | the code that runs is that of the alias's present value, and the run holds a reference |
| CommandFrames.Machine.LeaveCode | src/engine/command.cpp:2086-2087 | the block is freed just when nothing holds it any more |
| CommandFrames.Machine.SetArg | src/engine/command.cpp:422-435 | an argument bound in the frame is set; one that is not is bound first, and what it hid is kept in the frame |
| CommandFrames.Machine.SetAlias | src/engine/command.cpp:437-443 | the alias has its new value and flags, and its old code is let go |
| CommandFrames.Machine.BindArg | src/engine/command.cpp:393-402 | an unbound argument is bound to a value, and what it hid is kept in the frame |
| CommandFrames.Machine.PushArgs | src/engine/command.cpp:2074-2075 | the arguments of the call are bound to their values, and what they hid is kept |
| CommandFrames.Machine.PopArgs | src/engine/command.cpp:2090-2093 | the arguments of the call and those that the body bound besides get back what they had |
| CommandFrames.Machine.CleanCode | src/shared/command.h:337-345 | an identifier lets go of its code; the block is freed with the last reference |
| CommandFrames.Machine.PushArg | src/shared/command.h:347-355 | the value is hidden in the frame's slot and the new one bound |
| CommandFrames.Machine.PopArg | src/shared/command.h:357-365 | the hidden value comes back |
| CommandFrames.ReturnsTo | src/engine/command.cpp:2072-2097 | whatever ran in the new frame, what its bindings hid can be given back |
| CommandFrames.LetsGo | src/shared/command.h:337-345 | the count of every block stays the number of identifiers that hold it and calls that run it |
| CommandFrames.StopsRunning | src/engine/command.cpp:2086-2087 | so it does when a call ends |
| RangeCoder.RangeCoder.AttachSymbol | src/enet/compress.c:164-189 | attached at the vacant place of a search, a new symbol makes its context count the value |
| RangeCoder.RangeCoder.CountHere | src/enet/compress.c:190-196 | counting at the node found makes its context count the value |
| RangeCoder.RangeCoder.EncodeOwn | src/enet/compress.c:299-311 | the bytes for a value in one context: its slot, the escape of a used context, or none |
| RangeCoder.RangeCoder.TakeSymbol | src/enet/compress.c:552-571 | the symbol of a code, its slot, and the context that has learnt it |
| RangeCoder.RangeCoder.PatchIn | src/enet/compress.c:599-614 | one context of the walk up learns the byte, and the link before it is written |
| RangeCoder.RangeCoder.Reset | src/enet/compress.c:82-88 | the array starts over with the root alone, which represents the empty model |
| CoderLoops.SettleInto | src/enet/compress.c:126-138 | the settling loop in words writes the specified bytes, or fails just for lack of room |
| ChannelSender.Sender.SendOne | src/enet/protocol.c:1459-1524 | one command is sent, or dropped just if it begins an unreliable packet and the throttle's counter is beyond the throttle |
| ChannelSender.Sender.SetupAll | src/enet/peer.c:178-183 | the fragments get their numbers one after another: those of the packet |
| ChannelSender.Sender.GoBack | src/enet/protocol.c:1362-1370 | a timed-out command is moved back with its timeout doubled and its data no longer in flight |
| ChannelSender.Sender.Take | src/enet/protocol.c:238-262 | the command found leaves its list and its window's count |
| ChannelSender.NothingMatches | src/enet/protocol.c:204-231 | a number that is neither among the sent commands nor before the first command never sent is in use nowhere |
| ChannelReceiver.Receiver.FindReliable | src/enet/peer.c:856-882 | the backward walk over the list is the specified search |
| ChannelReceiver.Receiver.FindUnreliable | src/enet/peer.c:893-928 | the same for unreliable commands |
| ChannelReceiver.Receiver.AddToReliable | src/enet/protocol.c:614-631 | a fragment goes into its packet, and a packet it completes is dispatched |
| ChannelReceiver.Receiver.AddToUnreliable | src/enet/protocol.c:730-747 | the same for unreliable fragments |
| BandwidthThrottle.Host.SetLevel | src/enet/host.c:416-431 | every open peer gets the level, and none that was fixed is touched |
| BandwidthThrottle.Host.OnlineTotal | src/enet/host.c:353-361 | the data sent to the connected peers |
| BandwidthThrottle.Host.GrantBelow | src/enet/host.c:450-467 | one pass grants the peers below the level their own bandwidth and keeps enough for the level of all others, or changes nothing |
| BandwidthThrottle.GrantKeeps | src/enet/host.c:458-466 | granting a bandwidth below the level leaves at least the level for each remaining peer |
| WorldStateBroadcast.Broadcast.AddBlock | src/fpsgame/server.cpp:1415-1421 | the chunk is sent first just if the bytes reckoned would make it longer than the limit; then the bytes are put and the owner's mark moved |
| WorldStateBroadcast.Broadcast.Mark | src/fpsgame/server.cpp:1419-1421 | the marks are right for the longer chunk |
| WorldStateBroadcast.Broadcast.Double | src/fpsgame/server.cpp:1395 | the chunk stands twice behind what was sent before |
| WorldStateBroadcast.Broadcast.Stage | src/fpsgame/server.cpp:1482-1497 | one kind of blocks of all clients, said once, packed greedily and sent to the end |
| BotAssignment.ReleaseKeeps | src/fpsgame/aiman.h:181-182 | taken out of its owner's list, a bot is in no list |
| BotAssignment.GiveKeeps | src/fpsgame/aiman.h:184 | put into the list of its new owner, it is in that list alone |

## Left out

- Compressor: a code beyond the root's total, which no output of compress contains, leaves the model (`OutsideModel`); the source goes on with a value cut to 8 bits.
- Compressor: context exclusion, which the source switches off, and root minimum values other than 1.
- Compressor: a buffer after the first must not be empty, since the source reads its first byte untested.
- RangeCoder.RangeCoder.Decompress: says nothing of the output array and of the coder's state when it leaves the model.
- Delivery: allocation failure, sockets, clocks, byte order, and the checks of a command's channel, peer state and length that come before its handler; totalWaitingData is the parameter room, which says whether a packet is accepted.
- Delivery: a receiver in the state DISCONNECT_LATER, which acknowledges what it discards; disconnecting while commands are queued.
- Delivery: a run may lose every datagram, so progress is the existence of steps (`Progress`); the limit on data in flight is that of one channel, the data of other channels only leaving it less room.
- Progress.ArrivalIsExact: is stated for states in which what the sender keeps was acknowledged or can be repeated within the lifetime (`Retrievable`), which holds in every run if no packet has numbers in more than four windows (`ShortIsRetrievable`); `Retransmissions` has what happens otherwise.
- Delivery: lists are sequences with positions for iterators; the flag and queue by which a host finds peers with dispatched packets are not modelled.
- ReliableWindows.MustWaitIs: the mask of used windows is modelled as the set of its bits, not as a word.
- ChannelSender.Sender.Send: does not model the packet's reference count and failing allocation.
- ChannelSender.Sender.Setup: does not model outgoingDataTotal; the unreliable number is unbounded, since enet_peer_send gives out none beyond 65535.
- ChannelSender.Sender.CheckOutgoing: does not model nextTimeout, statistics, the ping flag and the disconnect at its end; packets' reference counts are not modelled. Where a drop takes a reliable command, or comes upon a command without a packet, the model's pass ends with what the list is then; the source goes on, in the second case through a null pointer.
- ChannelSender.Sender.SendReliable: does not model nextTimeout and the flag for the sent time.
- ChannelSender.Sender.RemoveSentReliable: does not model the kind of command returned and nextTimeout.
- ChannelSender.Sender.CheckTimeouts: does not model nextTimeout and packetsLost.
- ChannelSender.Sender.CheckOutgoing: the buffer limit is the default one, not that of systems which define MSG_MAXIOVLEN.
- UnsequencedWindow.Window.Handle: the peer's state and the length of the command are not modelled.
- BandwidthThrottle.Host.LimitOutgoing: bandwidths, data and their products are unbounded numbers, so 32-bit overflow of the products is not modelled; a host without a limit of its own starts from 2^32 - 1 for both.
- BandwidthThrottle.Host.LimitIncoming: that no more is left over than rounding takes is stated for calls in which all connected peers take part; BandwidthThrottle has it for every call after the interval unless the 32-bit clock has wrapped.
- BandwidthThrottle.Host.HandleBandwidthLimit: does not model windowSize.
- BandwidthThrottle.Host.ChangeState: the handshake's effect on a peer's bandwidth is a separate step, allowed for peers that are not connected.
- Crc32.Crc32: the swap to network byte order at the end.
- WorldStateBroadcast.Broadcast.Build: recording of demos and the flags of packets; positions and messages are given, and the value of N_CLIENT is fixed.
- WorldStateLifetime.WorldStates.Clean: that allocated buffers do not overlap is assumed of the allocator.
- WorldStateLifetime.WorldStates.Tick: that the buffer allocated for a tick lies apart from those still kept is assumed of the allocator.
- BotAssignment.BotManager.CheckAi: team balancing, game mode hooks, names, skills and the messages to clients.
- CommandFrames.Machine.CallAlias: commands, variables, lookups, results and the push and local commands; a value is the code it compiles to, and the compiler's limit on the number of arguments of a call is part of the model.
- CommandFrames.Machine.RunCode: models only the instructions that touch identifiers; none of them reads numargs, which a call sets and gives back.
- CommandFrames.Machine.Execute: models only calls of identifiers; an alias without a value is not called, and the message about it is not modelled.
- The script language's skipping of code, master and authentication servers, rendering, client-side AI, game modes, maps and demos are not modelled.
