# Verified models of the file transfer and of the router

This project models two protocols and proves what they promise.

**Reliable file transfer** (`project2`). A sender cuts a file into packets and sends them through a window of 8 out of
16 sequence numbers; a receiver reassembles them and acknowledges its position with a time stamp. Every datagram
carries a bit-serial CRC-16. The network may lose, repeat, reorder and corrupt datagrams in both directions.

**Distance-vector router** (`project3`). A router keeps four tables (ports, direct neighbours, distance vector,
forwarding table) and changes them when pongs, distance vectors and data arrive, and when ports and entries expire.

## How the model is built

Each program appears twice. A class with fields, arrays and a linked queue does what the source does, loop by loop and
branch by branch (`SendFile.FileSender`, `RecvFile.FileReceiver`, `RouterImpl.RoutingProtocol`, `FixQueue.Queue`, and
the methods of `CrcLoop` and `Wire`). Its methods are proved equal to functions on values (`SendFile.Pass`,
`RecvFile.Handle`, `RouterTables.RecvDV`, `RecvPong`, `Refresh`, ...). The theorems are about these functions, single
steps first, then whole runs of transition systems built from them. The modules named `...Effects` and `Layout` state what
a step does without using its parts:

| module | content |
|---|---|
| `Words`, `Bits`, `Crc16`, `CrcLoop` | machine words as numbers and as bit sequences; the checksum and its loops |
| `Polynomials`, `CrcAlgebra` | division by the generator over GF(2), and what that makes of the checksum |
| `Wire`, `Stamps`, `Window`, `FixQueue`, `Segments` | datagrams, time stamps, window arithmetic, the queue, cutting a file into packets |
| `Layout` | the same datagrams byte by byte |
| `SendFile`, `RecvFile` | the two main loops, as functions and as classes |
| `SenderIndices`, `ReceiverIndices` | residues mod 16 against unbounded packet indices |
| `SenderEffects`, `ReceiverEffects` | what one pass of either end does, for any time-outs, acknowledgements and packets |
| `Transfer`, `TransferTheorems` | sender, receiver and network as one system; the theorems about its runs |
| `Handshake` | how a transfer begins, and the receiver's farewells |
| `Completion` | from which states a transfer can be completed: from the greeting on, and after the receiver has left |
| `WrapRuns` | runs that stall the sender or miss the exit, for every file that has one |
| `RouterTables`, `RouterInvariant`, `Advertising`, `RouterImpl` | the handlers as functions, what each keeps and tells its neighbours, the class |
| `HandlerEffects` | what each handler does to every entry of the tables, and what it tells about it |
| `Topology`, `Soundness`, `DataPorts` | configured links and walks; costs are never too low, and data leaves on the right port, whatever fails |
| `Fifo`, `Routes`, `RouteSteps`, `PongSteps`, `LoopFree` | order-keeping links that do not die; forwarding never loops |
| `Convergence`, `RoundRuns` | rounds of updates lead to shortest distances, and every run can go on to them |
| `Quiescence`, `QuietRuns` | triggered updates alone lead there when nothing is lost, and they die down |
| `ForwardingLoops`, `StaleRoutes` | loops of any length, and which handlers and vectors make them |
| `Counting` | two routers in a loop: which counts end at infinity and which go on for ever |
| `LoopRuns` | runs in which a route that expired comes back as a loop and is counted up |

A machine word is a sequence of bits; where the source computes in 16 or 32 bits, `U16` and `U32` say so. The sender's
base is the ghost number `Base(s)`, packets read minus packets queued; the receiver's position is `lastId`.

Where the code and the expectation differ, the code is modelled and the exact condition is proved:

* The receiver's exit test compares a sequence number with an unwrapped sum (`project2/recvfile.c:217`), and the
  sender's window loop an unwrapped slot with a wrapped sequence number (`project2/sendfile.c:199`). Both go wrong for
  the same files, and the size alone tells which: those of more than 16 packets whose last sequence number is below 7
  (`!NoCross(file)`; the smallest has 17 packets). A sender can stall if and only if the file is one of them
  (`StallsExactly`), and a receiver can loop on with the whole file if and only if it is (`MissesExitExactly`); for
  all others the receiver always leaves (`NoCrossLeaves`) and loss-free rounds always complete (`RoundsComplete`,
  `Completes`).
  Step by step: the pass that completes the file leaves the loop if and only if the batch it writes does not cross the
  wrap (`LeavesExactly`), a missed exit is final (`MissedExitLasts`), the head packet is resent if and only if the
  base's sequence number is not above that of the last packet (`ResendsExactly`), and beyond that nothing is sent at
  all (`StalledSendsNothing`).
* The receiver acknowledges only 400 times after it has left its loop (`FarewellsExactly`). The sender can then still
  finish if and only if an acknowledgement of the whole file with a newer stamp is in flight or can still be made
  (`FinishesExactly`).
* A stamp is the clock modulo 2^32. Two stamps less than 2^32 apart compare like their clocks if and only if no wrap
  lies between them (`StampOrder`).
* The documentation of the router says that poison reverse overcomes counting to infinity (`project3/README.txt:1`).
  `sendDVUpdate` sends the same vector on every port, to the next hop of a route too (`SendUpdateComplete`). Without
  expiry that does no harm (`ForwardingReaches`). In general pongs and expiry never make a loop, and a vector makes
  one if and only if it offers a route that the receiver takes while the sender's own data for that destination comes,
  over however many routers, to the receiver (`VectorLoopsExactly`, `OnlyVectorsLoop`). After an expiry the router takes
  whatever is finite, so there is a loop if and only if a neighbour whose data still comes to the router sends it a
  finite cost (`LoopsExactly`; `PairLoopsExactly` for loops of two). Of any three routers in a row with small costs
  there is a run, at times the alarms allow, that does it (`RowLoops`), and then every update adds the cost of the link
  (`RowCounts`).
* Such a count need not end at infinity. Tables hold 32 bits, packets 16, and only the value 65535 reads as infinite;
  a count in steps of w that starts at c meets it if and only if w cannot be halved more often than c + 1
  (`StepsOverExactly`). All others go round 65536 for ever (`CountsForeverExactly`), for instance every even cost over
  a link with an even round-trip time (`EvenCountsForever`, `LineLoops`), and then costs below the distance are told
  (`LineUndershoots`).
* A pong that measures a changed round-trip time does not shift every route through the neighbour: with a dearer
  direct link the old cost stays, and a sum beyond 16 bits is truncated (`project3/PingPongImpl.cc:62-69`);
  `PongShiftsExactly` says when it is shifted.
* An undetected corruption is exactly one whose residue is zero (`UndetectedExactly`). Bursts of 16 bits are always
  detected; of those of 17 bits exactly the generator pattern is not (`SeventeenExactly`), at any place of any message
  (`SeventeenUnnoticed`).
* A pong that carries the router's own id makes it a destination of its own: the tables stay consistent if and only if
  it does not (`RecvPongConsistent`).

## Model

| member | source | states |
|---|---|---|
| CrcLoop.CalcCrc16 | project2/crc16.h:4-52 | The loops over bits, augmentation and mirror compute, of exactly the covered bytes, the remainder of M(x)·x^16 divided by x^16+x^15+x^2+1, its coefficients reflected |
| CrcAlgebra.CrcIsRemainder | project2/crc16.h:4-52 | The checksum is that reflected remainder, and no other 16 bits are |
| Crc16.MessageBit | project2/crc16.h:18-26 | Bytes enter in order, each from its lowest bit |
| CrcAlgebra.ResidueIsRemainder | project2/crc16.h:12-41 | A register value is the residue of a message if and only if it is the remainder of M(x)·x^16 divided by x^16+x^15+x^2+1: some quotient times the generator, plus it, is the message |
| CrcAlgebra.RemainderUnique | project2/crc16.h:12-41 | A message has only one remainder of degree below 16 |
| CrcAlgebra.CrcLinear | project2/crc16.h:6-52 | The checksum of the XOR of two equally long messages is the XOR of their checksums |
| CrcAlgebra.BurstDetected | project2/crc16.h:12-49 | An error burst inside 16 consecutive bits, at any place of a message of any length, changes the checksum |
| CrcAlgebra.SeventeenExactly | project2/crc16.h:12-49 | Of the errors confined to 17 consecutive bits, at any place of a message of any length, exactly the generator pattern leaves the checksum unchanged |
| CrcAlgebra.SeventeenUnnoticed | project2/crc16.h:12-49 | At every place with room for 17 bits, every message has a different one with the same checksum |
| CrcAlgebra.UndetectedExactly | project2/crc16.h:12-49 | Two equally long messages have the same checksum if and only if the residue of their XOR is zero |
| CrcAlgebra.SilentRegister | project2/crc16.h:36-41 | Clocking zeros never turns a non-zero register into zero |
| CrcAlgebra.CrcParity | project2/crc16.h:12-49 | The checksum has the parity of all message bits |
| CrcAlgebra.OddFlipsDetected | project2/crc16.h:12-49 | An odd number of flips over data and checksum makes the comparison fail |
| Wire.DataRoundTrip | project2/sendfile.c:215-230 | Reading a built data datagram gives back sequence number, type, id and payload, and its checksum holds |
| Wire.AckRoundTrip | project2/recvfile.c:235-243 | The same for acknowledgements and their two clock fields |
| Wire.BurstDropped | project2/recvfile.c:148-152 | A burst of at most 16 bits in the covered bytes makes either end drop the datagram |
| Wire.OddFlipsDropped | project2/recvfile.c:148-152 | So does an odd number of flips anywhere in it |
| Wire.BuildData | project2/sendfile.c:215-230 | The header writes and the checksum produce the encoding of the packet |
| Wire.ReadData | project2/recvfile.c:148-155 | The checksum test over the received length and the header reads, which for a short datagram reach into what the buffer held before, are `DataIn` |
| Wire.WholeDataIn | project2/recvfile.c:148-155 | When the header is whole, what is read is what the parser finds in the datagram, whatever else is in the buffer |
| Layout.IntactExactly | project2/recvfile.c:148-149 | The test passes exactly if the first two bytes, in network order, are the checksum of the others |
| Layout.DataFields | project2/recvfile.c:153-165 | Sequence number, type and id are the numbers at bytes 2, 6 and 8, in network order |
| Layout.AckFields | project2/sendfile.c:160-169 | Number, type, seconds and microseconds are those at bytes 4, 6, 8 and 12 |
| Layout.PacketLayout | project2/sendfile.c:206-230 | Packet i of a file: number i mod 16 at byte 2, zero, type 4 for the last packet and 2 for the others, id i + 1, and the bytes of the file from 32768 i on |
| Layout.AcknowledgementLayout | project2/recvfile.c:236-243 | The acknowledgement: zero, the number before the receiver's, type 1, the clock in seconds and microseconds |
| Wire.BuildAck | project2/recvfile.c:237-243 | The acknowledgement header and its checksum produce its encoding |
| Wire.ReadAck | project2/sendfile.c:156-169 | The same test and reads at the sender are `AckIn` |
| Wire.WholeAckIn | project2/sendfile.c:156-169 | A whole acknowledgement is read as the parser finds it |
| Stamps.StampIsClock | project2/sendfile.c:162-164 | Seconds and microseconds, recombined in 32 bits, are the receiver's clock modulo 2^32 |
| Stamps.StampOrder | project2/sendfile.c:166 | Two stamps less than 2^32 apart order like their clocks if and only if no wrap lies between them |
| Window.WindowExact | project2/util.h:20-39 | Within one cycle of the base, the window test and the window offset on residues are those of unbounded indices |
| Window.AckNumIsPrevious | project2/util.h:41-45 | `mod(la_seq-1, 16)` is the sequence number before the position, also at the wrap |
| Window.AckExact | project2/sendfile.c:174-181 | The acknowledgement of a position falls into the window if and only if it acknowledges something new, at the offset of the last acknowledged packet |
| Window.BaseShift | project2/sendfile.c:178-186 | Moving the base renumbers all sixteen offsets round the circle |
| FixQueue.Queue.Enqueue | project2/fix_queue.h:13-24 | The walk to the last node appends: contents and node identities, no other node is touched |
| FixQueue.Queue.Dequeue | project2/fix_queue.h:27-35 | The first node is removed; an empty queue stays empty |
| FixQueue.Queue.GetK | project2/fix_queue.h:37-52 | The k-th node, and null if and only if there is none, also for negative k |
| Segments.OnlyLastIsShort | project2/sendfile.c:213-225 | Exactly the last packet has type 4; its length is the file size modulo 32768, so it may be empty |
| Segments.PayloadsAreFile | project2/sendfile.c:212-230 | The payloads of all packets, concatenated, are the file |
| SendFile.FileSender.LoopPass | project2/sendfile.c:151-242 | One pass of the main loop is `Pass`: time-outs, the acknowledgement if one is readable, the window loop; for a short datagram it is the same with the stale bytes (`PassAck`); the datagrams handed to the network are the encodings of the packets sent |
| SenderEffects.PassExactly | project2/sendfile.c:151-242 | One pass, for any time-outs and any acknowledgement of the receiver: it ends the transfer exactly on a newer one of the whole file; otherwise the base is at the acknowledged position and, unless the last number has wrapped below it, exactly the packets of the window that are new, timed out or over time are sent, in order, and wait from then on |
| SenderEffects.ResentExactly | project2/sendfile.c:262-276 | Without an acknowledgement, a waiting packet is sent again if and only if it had timed out or is over time now |
| SenderEffects.AnyNumber | project2/sendfile.c:166-187 | What an acknowledgement with any number and stamp does, in residues: nothing if it is not newer; else the stamp is kept, a number out of range skips the pass, one outside the window changes nothing, the last number ends the transfer, any other drops the packets up to it |
| SenderEffects.BadNumberSkips | project2/sendfile.c:170-172 | A pass with a number out of range sends nothing |
| SendFile.FileSender.CheckTimeouts | project2/sendfile.c:262-276 | Exactly the set alarms inside the window whose time is over become time-outs |
| SendFile.FileSender.HandleAckNum | project2/sendfile.c:166-187 | Stamp test, range test, window test, end test and window move, in this order |
| SendFile.FileSender.AcknowledgeUpTo | project2/sendfile.c:178-185 | Exactly the acknowledged alarms are cleared and one packet is dequeued for each |
| SendFile.FileSender.SendNewWindow | project2/sendfile.c:196-241 | State, packets and encoded datagrams of the window loop, in order |
| SendFile.FileSender.ReadSlot | project2/sendfile.c:203-234 | A free slot reads, numbers, queues and arms the next packet |
| SenderIndices.AckMovesBase | project2/sendfile.c:166-187 | An acknowledgement of position pos moves the base to exactly pos, and ends the transfer if and only if pos is the whole file |
| SenderIndices.StopsExactly | project2/sendfile.c:199-201 | While not stalled, the mixed comparison passes over a slot if and only if everything is read and the slot lies beyond the end |
| SenderIndices.FillExactly | project2/sendfile.c:196-241 | The window loop reads up to the end of the window or of the file and sends exactly the due packets of the file, in order |
| SenderIndices.StalledSendsNothing | project2/sendfile.c:199-201 | Once the last packet's number has wrapped below the base, the loop sends nothing, whatever timed out |
| RecvFile.FileReceiver.constructor | project2/recvfile.c:131-141 | Eight empty nodes are queued and nothing is received |
| RecvFile.FileReceiver.LoopPass | project2/recvfile.c:143-247 | One pass is `Handle` of the datagram, or with a short one `HandleIn` of the buffer, followed by an acknowledgement of the new position |
| RecvFile.FileReceiver.ReceivePacket | project2/recvfile.c:154-232 | Id test, last-packet note, window test, placement, in-order writing, exit test and window move |
| ReceiverEffects.Rejected | project2/recvfile.c:158-166 | Any packet with another type, an old id, a place outside the window or one that is taken changes nothing but the note about the last packet |
| ReceiverEffects.Stored | project2/recvfile.c:166-219 | Any new packet of the window beyond its base is stored in its place; nothing is written |
| ReceiverEffects.AtBase | project2/recvfile.c:166-218 | The packet at the base is written with the whole row stored behind it, in order; position, window, flags and nodes move by their number; the loop is left exactly if the last of them has the number of the last packet |
| RecvFile.FileReceiver.StoreNode | project2/recvfile.c:190-199 | The node of the slot exists and takes the payload; no other node changes |
| RecvFile.FileReceiver.WriteNodes | project2/recvfile.c:204-216 | The completed nodes are written front first, replaced by empty ones at the end, and their flags cleared |
| RecvFile.ReleaseKeepsOrder | project2/recvfile.c:166-218 | After every arrival the queue has eight nodes, a set flag lies in the window and its node is filled, and the base's flag is clear |
| ReceiverIndices.FreshIsInWindow | project2/recvfile.c:158-166 | A packet that passes the id test lies in the receive window |
| ReceiverIndices.ReceiveKeeps | project2/recvfile.c:154-232 | An arrival of any packet of the file keeps: the first `lastId` packets are written, a stored node holds the payload of its index |
| ReceiverIndices.HeadAdvances | project2/recvfile.c:166-218 | The packet at the base is always accepted and raises the position |
| ReceiverIndices.ExitExactly | project2/recvfile.c:217 | The arrival that completes the file sets `ready_exit` to 2 if and only if the batch does not cross the wrap |
| Transfer.RunKeeps | project2/sendfile.c:97-242 | The invariant of sender, receiver and everything in flight holds at every moment of every run |
| Transfer.AckStep | project2/sendfile.c:162-187 | Whatever acknowledgement is delivered, the base stays or moves to the position at which it was made; the sender finishes only on the whole file |
| TransferTheorems.WrittenIsPrefix | project2/recvfile.c:143-252 | In every run the written bytes are the first `lastId` packets, a prefix of the file, and base <= position <= read <= base + 8 |
| TransferTheorems.CompletionIsTruthful | project2/sendfile.c:174-177 | Either end leaves its loop only when the whole file is written, although both tests compare residues |
| TransferTheorems.PassesSendExactly | project2/sendfile.c:151-242 | In every run a pass that does not end the transfer puts exactly the new, timed-out and over-time packets of its window in flight |
| TransferTheorems.AcksAreNeverMisread | project2/sendfile.c:162-187 | In every run, if a pass moves the base, it moves it to the position the receiver had when it made exactly that acknowledgement |
| TransferTheorems.IgnoredAreDuplicates | project2/recvfile.c:155-232 | In every run a delivered packet that passes the id test lies in the window and is ignored if and only if it is already stored; all others, late file names included, are rejected |
| TransferTheorems.RetransmissionsAreIdentical | project2/sendfile.c:196-240 | In every run, data datagrams sent with the same packet id are equal byte for byte |
| TransferTheorems.LeavesExactly | project2/recvfile.c:217 | In every run the step that completes the file leaves the receiver's loop if and only if the number of its position before the step is not above that of the last packet |
| TransferTheorems.MissedExitLasts | project2/recvfile.c:158-219 | A receiver that still loops with the whole file written loops, unchanged, in every later state of the run |
| TransferTheorems.NoCrossLeaves | project2/recvfile.c:217 | In every run of a file of at most 16 packets, or whose last sequence number is at least 7, a receiver that has the whole file has left its loop |
| TransferTheorems.NoCrossSends | project2/sendfile.c:199-201 | In every run of such a file the sender is never stalled |
| TransferTheorems.ResendsExactly | project2/sendfile.c:196-240 | With all alarms timed out, the head packet is resent if and only if the sender is not stalled |
| TransferTheorems.RoundProgresses | project2/sendfile.c:151-242 | From every state of every run that is not stalled, a continuation by one loss-free round raises the base or ends the transfer |
| TransferTheorems.RoundsComplete | project2/sendfile.c:151-242 | From every state of every run in which both ends loop, a continuation by loss-free rounds reaches the end, with the whole file written, or a stalled sender; for a file whose last window does not cross the wrap always the end |
| Completion.Meet | project2/sendfile.c:97-145 | From every state of the greeting, whatever of it was lost, a continuation brings both ends into their loops: the reply is repaired by later acknowledgements of position 0 |
| Completion.Completes | project2/sendfile.c:97-242 | From every state of every run in which the receiver has not left, the greeting included, a continuation reaches the end, with the whole file written, or a stalled sender; for a file whose last window does not cross the wrap always the end |
| Completion.FinishesExactly | project2/recvfile.c:256-269 | When the receiver has left, some continuation closes the sender if and only if an acknowledgement of the whole file with a newer stamp is in flight or can still be made |
| Handshake.NameLayout | project2/sendfile.c:96-103 | The datagram with the name, byte by byte: number 15, zero, type 2, id 0, the name |
| Handshake.NameIsTaken | project2/recvfile.c:71-103 | In every run the receiver begins exactly with an intact datagram, and that carries the name that was sent |
| Handshake.GreetedExactly | project2/sendfile.c:122-138 | The sender enters its loop exactly on an intact acknowledgement with number 15, type 1 and a stamp that is not zero, and keeps the stamp |
| Handshake.FarewellsExactly | project2/recvfile.c:256-269 | In every run the receiver acknowledges its final position 400 times after it has left its loop, and no more |
| WrapRuns.StallsExactly | project2/sendfile.c:196-201 | Some run of a file stalls its sender if and only if the file has more than 16 packets and a last sequence number below 7 |
| WrapRuns.MissesExitExactly | project2/recvfile.c:204-218 | Some run of a file ends with the whole file written and the receiver still in its loop if and only if the same holds |
| WrapRuns.CrossingStalls | project2/sendfile.c:196-201 | For every such file, a run that ends with both ends in their loops, the sender stalled and the file incomplete |
| WrapRuns.CrossingMissesExit | project2/recvfile.c:204-218 | For every such file, a run that ends with the exit missed: the last window arrives back to front |
| WrapRuns.SeventeenPacketsCross | project2/util.h:3-5 | The smallest such file has 17 packets; all smaller ones are safe |
| RouterTables.ConnectedPortsDistinct | project3/PingPongImpl.cc:46-51 | Connected ports lead to distinct neighbours |
| RouterTables.ListingAscending | project3/DVImpl.cc:172-175 | A listing of the table is in ascending key order, without repetition |
| RouterInvariant.SendUpdateSound | project3/DVImpl.cc:149-168 | Every packet sent goes out on a connected port to the neighbour there, with the same entries, in port order |
| RouterInvariant.SendUpdateComplete | project3/DVImpl.cc:149-168 | Every connected port gets its packet |
| HandlerEffects.UpdateTells | project3/DVImpl.cc:170-177 | A periodic update tells every destination of the table once, in ascending order, at its cost modulo 2^16 |
| RouterInvariant.PoisonIsHeeded | project3/DVImpl.cc:72-98 | After an infinite cost no route leads through its sender except to the sender itself; the route is given up if and only if it led there and no direct link is left; the outcome is advertised if and only if there was a route |
| RouterInvariant.PongShiftsExactly | project3/PingPongImpl.cc:58-76 | A changed round-trip time shifts the cost of a route through the neighbour by the change if and only if the sum fits into 16 bits and its destination was no neighbour before, or is that neighbour and had the cost measured last; otherwise it is truncated, or stays, or the route becomes direct |
| HandlerEffects.PongPortsExactly | project3/PingPongImpl.cc:31-54 | After a pong its port leads to the source, at the measured time, heard now; every other port that led there is disconnected; the source is a neighbour at this port and time |
| HandlerEffects.PongConfirms | project3/PingPongImpl.cc:58-100 | Exactly the routes through the source, and the direct one unless it is dearer than the route in use, are confirmed now; every other entry is as before; with an unchanged time nothing else changes |
| HandlerEffects.PongReroutes | project3/PingPongImpl.cc:58-85 | With a changed time: the exact next hop and cost of every entry, direct links and truncation included |
| HandlerEffects.PongMeets | project3/PingPongImpl.cc:102-107 | An unknown source becomes a direct destination; no other destination comes or goes |
| HandlerEffects.PongTellsExactly | project3/PingPongImpl.cc:72-116 | What a pong tells, in which order and at which costs: what it touched, everything when the port was not connected or the source is new |
| HandlerEffects.PongTells | project3/PingPongImpl.cc:72-116 | A destination left out has its old route; the last word on any other is its cost after the pong |
| HandlerEffects.PongKeepsAlive | project3/PingPongImpl.cc:94-100 | What a pong confirmed is unchanged by expiry for 15 seconds, and for 45 as long as the port to its next hop is heard |
| Advertising.PacketTells | project3/DVImpl.cc:26-146 | What is sent on after a packet of any contents leaves out a destination only if its route is unchanged, and its last word on a destination is the cost in the table then |
| Advertising.PongTellsChanges | project3/PingPongImpl.cc:45-117 | What is sent after a pong leaves out a destination only if its route is unchanged |
| HandlerEffects.VectorMeets | project3/DVImpl.cc:11-25 | An unknown source of a vector is a neighbour at the port of the packet, at the first cost it lists for this router; other neighbours and ports stay; every entry is as before or was confirmed now |
| HandlerEffects.EntryExactly | project3/DVImpl.cc:35-113 | The route, time and advertisements that one entry leaves, in every case; all other destinations are left alone |
| HandlerEffects.VectorSplits | project3/DVImpl.cc:27-142 | A packet does and tells what its entries do, one after the other |
| HandlerEffects.VectorMeetsFirst | project3/DVImpl.cc:11-25 | A packet of an unknown source does what it does once the source is known |
| RouterInvariant.RecvDVConsistent | project3/DVImpl.cc:3-147 | A vector of any contents keeps the four tables consistent: equal keys and next hops, next hops are neighbours, ports and neighbours point to each other, no entry for the router itself |
| RouterInvariant.RecvPongConsistent | project3/PingPongImpl.cc:23-118 | A pong on any port keeps them consistent if and only if it does not carry the router's own id |
| RouterInvariant.RefreshConsistent | project3/RoutingProtocolImpl.cc:81-143 | Expiry keeps the four tables consistent |
| RouterInvariant.SurvivorBacked | project3/RoutingProtocolImpl.cc:85-99 | An expired neighbour is reached through no other connected port, so no live port loses its neighbour |
| RouterInvariant.RefreshIsFresh | project3/RoutingProtocolImpl.cc:85-139 | After expiry no route leads through a neighbour whose port expired and no entry is older than 45 seconds |
| HandlerEffects.RefreshPortsExactly | project3/RoutingProtocolImpl.cc:85-92 | Exactly the ports that were silent for more than 15 seconds are disconnected, and exactly the neighbours behind them forgotten |
| HandlerEffects.RefreshExactly | project3/RoutingProtocolImpl.cc:93-139 | An entry is unchanged if and only if its next hop is not lost and it was confirmed at most 45 seconds ago; otherwise it becomes direct, as of now, if its destination is still a neighbour, and is gone if not |
| HandlerEffects.ConfirmedStays | project3/RoutingProtocolImpl.cc:85-139 | An entry of at most 45 seconds whose next hop's port is alive is unchanged |
| HandlerEffects.RefreshTellsExactly | project3/RoutingProtocolImpl.cc:100-142 | Expiry tells exactly the entries that do not stay, each once, lost ones port by port before old ones, at their cost then or as unreachable |
| HandlerEffects.RefreshTells | project3/RoutingProtocolImpl.cc:100-142 | What it does not tell is unchanged, and its last word on everything else is the cost in the table then |
| DataPorts.DataLeavesRight | project3/FwdDataImpl.cc:7-24 | At every moment of every run with loss, repetition, reordering and expiry, data for a known destination leaves on the port that physically leads to the next hop in the table |
| RouterInvariant.RecvDataFollowsTable | project3/FwdDataImpl.cc:7-24 | Data leaves on the port of the table's next hop, if and only if there is an entry; no lookup meets a missing key |
| RouterImpl.RoutingProtocol.constructor | project3/RoutingProtocolImpl.cc:21-34 | All ports start unconnected, all other tables empty |
| RouterImpl.RoutingProtocol.UpdateDVTable | project3/DVImpl.cc:170-177 | The whole table goes out on every connected port |
| RouterImpl.RoutingProtocol.RecvDV | project3/DVImpl.cc:3-147 | The loop over the entries, updating the maps in place, is `RouterTables.RecvDV`; what is sent is what was collected |
| RouterImpl.RoutingProtocol.HandlePong | project3/PingPongImpl.cc:23-118 | The pong branch is `RecvPong`, advertisements included |
| RouterImpl.RoutingProtocol.RefreshDV | project3/RoutingProtocolImpl.cc:81-143 | The three loops are `Refresh`; what is advertised, and in which order, is `RefreshAds`: each removed or re-pointed destination exactly once, as unreachable or at its direct cost |
| RouterImpl.RoutingProtocol.ExpirePorts | project3/RoutingProtocolImpl.cc:83-99 | The first loop disconnects exactly the silent ports and collects, without duplicates, port by port in key order, the destinations behind them |
| RouterImpl.RoutingProtocol.RecvDATA | project3/FwdDataImpl.cc:3-28 | Data is taken in, dropped or sent on the port of the next hop |
| Soundness.RunSound | project3/DVImpl.cc:3-147 | In every run with loss, repetition, reordering, link deaths and recoveries the soundness invariant holds |
| Soundness.CostsAreNeverTooLow | project3/DVImpl.cc:38-113 | In every such run every table entry and every finite cost in flight is at least the length of some walk of configured links, hence never below the shortest distance |
| Soundness.PongSound | project3/PingPongImpl.cc:23-118 | After a pong every table entry and every finite advertised cost is still at least the length of some walk |
| Soundness.RefreshSound | project3/RoutingProtocolImpl.cc:81-143 | Expiry and its advertisements keep soundness |
| RouteSteps.JudgeCases | project3/DVImpl.cc:35-113 | While links hold, an offer replaces a route if and only if it is cheaper; otherwise the route stays, or becomes an equally cheap or cheaper direct link |
| RouteSteps.RelaxKeeps | project3/DVImpl.cc:27-142 | A packet, taken entry by entry, only lowers costs, keeps every route good against what is still on its way, says only current costs, and leaves every offer heard |
| PongSteps.PongKeeps | project3/PingPongImpl.cc:23-118 | The same for pongs: the first one makes a direct route, later ones change only times |
| LoopFree.RunInv | project3/DVImpl.cc:3-177 | While no link dies, the routing invariant holds at every moment of every run |
| LoopFree.CostsFallAlongHops | project3/DVImpl.cc:38-113 | At every moment of every run a cost is at least the link's round-trip time, which is positive, plus the next hop's own cost |
| LoopFree.ForwardingReaches | project3/FwdDataImpl.cc:7-24 | At every moment of every run, before convergence too, data for a known destination reaches it, visits no router twice and costs no more than the table says |
| Convergence.RoundCovers | project3/DVImpl.cc:170-177 | A round in which each link carries one table each way, in any order and with any other traffic or loss, covers walks with one more link |
| Convergence.RoundsCover | project3/DVImpl.cc:33-113 | After k rounds every cost is at most that of any walk of at most k + 1 links |
| Convergence.ReachableIsKnown | project3/DVImpl.cc:33-113 | With n routers, from n - 2 rounds on and ever after, a router has an entry for another if and only if some walk joins them |
| Convergence.CostsAreExact | project3/DVImpl.cc:33-113 | From then on every cost is exactly the length of a shortest walk |
| Convergence.DataTravelsShortest | project3/FwdDataImpl.cc:7-24 | From then on data travels along shortest walks |
| StaleRoutes.UnknownIsTaken | project3/DVImpl.cc:102-113 | A finite cost listed once for an unknown destination becomes a route through the sender, whatever else the packet lists |
| ForwardingLoops.ChangeLoopsExactly | project3/FwdDataImpl.cc:7-24 | When one router of a loop-free network changes, there is a loop, anywhere and of any length, if and only if data that this router sends on comes back to it |
| ForwardingLoops.RefreshKeepsLoopFree | project3/RoutingProtocolImpl.cc:81-143 | Expiry never makes a loop |
| ForwardingLoops.PongKeepsLoopFree | project3/PingPongImpl.cc:23-118 | A pong never makes a loop |
| ForwardingLoops.VectorLoops | project3/DVImpl.cc:3-147 | A vector of any contents makes a loop if and only if it leaves a route through its sender and the sender's data comes to the receiver |
| StaleRoutes.EntryDecides | project3/DVImpl.cc:27-142 | In a packet that lists each destination once, each entry decides about its destination as if it were alone |
| StaleRoutes.VectorLoopsExactly | project3/DVImpl.cc:27-142 | Such a packet makes a loop for a destination if and only if, in the tables before it, its offer is finite and cheaper, or from the next hop and better than the direct link, or for an unknown destination, and the sender's data for it comes to the receiver |
| StaleRoutes.LoopsExactly | project3/DVImpl.cc:149-177 | When a router has lost its route, the next vector of a neighbour makes data go in a circle through it, of any length, if and only if the neighbour lists a finite cost and its own data comes, over any routers, to that router |
| StaleRoutes.PairLoopsExactly | project3/DVImpl.cc:149-177 | The circle of two: if and only if the neighbour has its route through that router, at a cost that goes out as a finite one |
| Counting.CountingEndsExactly | project3/DVImpl.cc:38-71 | Two routers whose only routes lead to each other still forward to each other after any number of updates, at any times, if and only if none of the costs told so far was 65535 |
| Counting.AfterTurns | project3/DVImpl.cc:38-98 | Until then each update raises the cost by that of the link, in 16 bits; from then on the route is given up |
| Counting.StepsOverExactly | project3/DVImpl.cc:38 | A count from c in steps of w never meets 65535 if and only if w can be halved more often than c + 1, up to 16 times |
| Counting.CountsForeverExactly | project3/DVImpl.cc:38-71 | The two forward to each other for ever, however many updates they exchange, if and only if that holds |
| Counting.EvenCountsForever | project3/DVImpl.cc:38-71 | For instance for every even cost over a link with an even round-trip time |
| LoopRuns.OnlyVectorsLoop | project3/DVImpl.cc:3-147 | In every run with loss, repetition, reordering and expiry, an event makes a loop if and only if it delivers a vector that leaves a route through its sender, whose data comes to the receiver |
| LoopRuns.RowLoops | project3/RoutingProtocolImpl.cc:81-143 | Of any three routers in a row with small costs, a run in which the middle one's route expires, comes back from the third and ends in a loop of the two; times never decrease, pings leave every 10 s, ports are checked every second and expire within 16 s |
| LoopRuns.RowCounts | project3/DVImpl.cc:50-62 | The run goes on for any number of updates whose costs stay below infinity: the two forward to each other all the time, and each update adds the cost of the link |
| LoopRuns.RowNeverEnds | project3/DVImpl.cc:38-71 | Past that, the two go on for ever if and only if the count steps over 65535 |
| LoopRuns.LineLoops | project3/RoutingProtocolImpl.cc:81-143 | In a line of three routers two milliseconds apart the loop is reached and never ends, however many updates are exchanged |
| LoopRuns.LineUndershoots | project3/DVImpl.cc:165 | In it, 32765 updates later, a router tells a cost of 0 for a destination that no walk reaches in no time |
| RoundRuns.CanRound | project3/DVImpl.cc:170-177 | From every state in which every link is measured a continuation performs a round |
| RoundRuns.ExactIsReachable | project3/DVImpl.cc:33-113 | Every run, whatever was lost in it, has a continuation after which every router knows exactly the reachable routers, at exactly their distance |
| Quiescence.RunInformed | project3/DVImpl.cc:26-146 | In every run without loss, what a neighbour knows of a route is current, or the last word on its way is |
| Quiescence.QuietReach | project3/DVImpl.cc:33-113 | In every run without loss, whenever every link is measured and nothing is on its way, a router has an entry for another if and only if some walk joins them |
| Quiescence.QuietIsExact | project3/DVImpl.cc:33-113 | Then its cost is exactly the distance, by triggered updates alone |
| QuietRuns.CalmPacket | project3/DVImpl.cc:27-142 | Once every route of the neighbours is heard, a packet of good routes changes no cost, and only destinations reached through its sender are passed on, each further away here than there |
| QuietRuns.QuietIsReachable | project3/DVImpl.cc:27-146 | Every run has a continuation without loss to a state in which every link is measured and nothing is on its way |

## Left out

- Sockets, files on disk, directory creation, argument parsing, printing and freed memory: a file is a byte sequence, the network a set of datagrams or a log per link.
- Round-trip time arithmetic of the sender: which alarms are over time is an arbitrary input of every pass.
- Clocks: stamps and table times are inputs. The receiver's clock never runs backwards and its stamp does not wrap during a transfer; `StampOrder` shows what a wrap would do.
- Interleaving inside a loop pass: a pass of either main loop, which reads at most one datagram before it sends, is one step.
- SendFile.FileSender.LoopPass: datagrams of a single byte, whose checksum the source computes over a negative length, 65535 bytes beyond the buffer. Neither end sends one.
- RecvFile.FileReceiver.LoopPass: the same, and packets with which the source would index beyond its flags or copy a negative length: those with a sequence number above 15 that fall into the window test, and those without a whole header that are stored. Neither end sends one.
- RecvFile.FileReceiver.ReceivePacket: packets with which the source would index beyond its flags.
- Wire.ReadData: datagrams of less than 2 bytes; the buffers of the source hold 32 KB, so no length is truncated to 16 bits.
- Wire.ReadAck: the same.
- Handshake.GreetedExactly: in the greeting, unlike in the loops, a datagram too short for its header counts as unreadable.
- Soundness.PongSound: a pong after which a shifted cost would reach 65535, which the source truncates; `PongShiftsExactly` has no such limit.
- Files of 2^32 packets or more, whose ids would wrap.
- The name packet is taken as given; opening, naming and creating the output file are not modelled.
- What happens after a stall: an operator has to end both programs.
- Soundness.CostsAreNeverTooLow: assumes that no sum reaches 65535 and that a packet introducing an unknown neighbour lists this router; otherwise the source tells a truncated or stores an uninitialised cost, and the claim fails (`LineUndershoots`).
- LoopFree.ForwardingReaches: assumes that no port or entry expires, that round-trip times are fixed, that links keep the order of packets, that a neighbour's pong precedes its first vector, and that every walk without repetition costs less than 65535 in all; after an expiry it can fail (`LoopsExactly` says exactly when, `RowLoops` is a run).
- Convergence.CostsAreExact: the same assumptions.
- Quiescence.QuietIsExact: the same assumptions, and that nothing is lost. `QuietIsReachable` shows that updates can die down from everywhere, by delivering what is on its way; a schedule that keeps adding periodic updates is never quiet.
- LoopRuns.RowLoops: the costs of the three routers add up below 65535; `LoopsExactly` has no such limit. Packets take no time of their own: any time from when it was sent may be that of a delivery.
- LoopRuns.RowNeverEnds: is about the updates between the two, without the pings and refreshes in between.
- The 16-bit size field of a distance-vector packet: a table too long for one packet is not modelled.
- PING packets and alarms: pongs, updates and expiry happen at any time.
- The event simulator of project3, `chksum` of project2/util.h (never called), project1.
