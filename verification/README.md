# A verified model of rush

`rush` is a packet engine: apps joined by links pull packets from interfaces, push them on and
give them back to a freelist. On it runs a network emulator that splits traffic into flows, gives
each flow a rate, a loss, a latency and a jitter, and counts what it sees for a client to show.

This project models that behaviour in Dafny and proves properties of the model. Code that changes
state in steps is modelled by methods and classes, each proved against a specification function;
what the system promises is then proved about those functions, over all inputs and over whole runs.

| module | models |
|---|---|
| `OnesComplement`, `Checksum` | the ones' complement sum of section 2 of RFC 1071, the reference loop, and the x86_64 and aarch64 routines as register machines |
| `Headers`, `Offload` | header fields and checksums in a packet buffer; TCP segmentation, and filling in checksums left out |
| `DelaySteps`, `DelayOrders`, `DelayLosses` | the delay step of one round of computing the breathe order: when it is determined, and when it loses an app |
| `BreatheOrder`, `BreatheRuns`, `BreatheWitnesses`, `Engine` | the order of pulls and pushes, and all runs of computing it; migration from one app network to another |
| `DelayQueues`, `Qos`, `Jitters`, `RateLimiters` | latency, jitter and loss; the token bucket |
| `Links`, `LinkApps`, `Packets`, `Ownership`, `BasicApps`, `Breathing` | ring buffers, what the basic apps send, the freelist, and where every packet is at all times |
| `FlowIds`, `FlowTops`, `Splits`, `Profiles`, `FlowString` | flow IDs and their hash, profiling and splitting by flow, and the client's reading and printing of flows |
| `Configs`, `SyntheticNames`, `SyntheticNetworks`, `SyntheticProperties`, `SyntheticClashes`, `SyntheticOrders` | link syntax, and the network generated from a specification |
| `Words`, `Wrappers` | integer widths, and optional values |

Hash maps and sets are iterated in an arbitrary order, every random draw is an arbitrary choice,
and time is an input. Integers are unbounded, and widths are written out where they matter:
registers, sequence numbers, token sums, flow counters and hashes. `Result` and `Option` values
stand for panics and exceptions.

Some statements in the code or its documentation turned out not to hold as written. For each there
is an input that shows it, and a condition for when it does hold:

- Comparing `ipsum(data, len, value)` with zero also accepts 0xffff, exactly where the data sum to
  0xffff (`OnesComplement.IpsumVerifies`, `OnesComplement.AllOnesAccepted`).
- The breathe order is not determined by the configuration, and need not follow links that have no
  cycle (`BreatheWitnesses.OrderNotDetermined`). A round without self-links is determined if and only
  if no dependent both is fed by a dependent and feeds one (`DelayOrders.DeterminedExactly`); a
  configuration all of whose rounds are like that has one order (`BreatheRuns.OrderDetermined`), and
  the generated networks are such configurations (`SyntheticOrders.NetworkOrderDetermined`).
- An app can be linked and never be exhaled, if it is linked to itself
  (`BreatheWitnesses.SelfLinkLosesApp`); which rounds can lose an app is decided by
  `DelayLosses.LossExactly`.
- A latency queue with one free slot takes a marker without a packet. A run panics if and only if
  that happens and a pull comes when the marker is due (`Qos.LatencyPanicsExactly`).
- In a jitter queue such a marker may still get its packet (`Jitters.LastSlotFilled`); a run panics
  if and only if a pull finds one without, due like everything before it
  (`Jitters.JitterPanicsExactly`).
- Of the port ranges in order, printing a flow loses exactly those from zero to anything but 0 or 65535
  (`FlowString.PrintParses`).
- Not every pair of interface names gives a network that is well-formed: it is if and only if no
  names clash (`SyntheticClashes.WellFormedExactly`). Equal names do, and so does `rate_ingress`
  (`SyntheticClashes.SameInterfaceClashes`, `SyntheticClashes.StageNameClashes`); ordinary names do
  not (`SyntheticNames.OrdinaryNamesDoNotClash`).

`dafny verify dfyconfig.toml` verifies the project.

## Model

| member | source | states |
|---|---|---|
| `OnesComplement.CanonDecides` | rush/src/checksum.rs:23-29 | The folded sum is one representative of each class of sums that agree mod 65535 with zero apart: two sums fold alike exactly when they are in one class, so the choice between 0x0000 and 0xffff is decided, not just the residue. |
| `OnesComplement.IpsumChains` | rush/src/checksum.rs:49-57 | For a first block of even length, passing the complement of its checksum as the initial value continues the checksum over the next block, for every initial value. |
| `OnesComplement.IpsumVerifies` | rush/src/checksum.rs:39-47 | The documented check `ipsum(data, len, value) == 0` holds exactly when the value is the checksum, or is 0xffff while the sum of the data folds to 0xffff; the second case is what the documentation leaves out. |
| `OnesComplement.AllOnesAccepted` | rush/src/checksum.rs:39-47 | Two bytes 0xff are accepted with the value 0xffff, which is not their checksum. |
| `OnesComplement.StoredChecksumVerifies` | rush/src/ipv4.rs:184-192 | A block that carries its own checksum in an aligned 16-bit field sums to all ones, so summing it gives zero. |
| `OnesComplement.FieldSum` | rush/src/tcp.rs:82-91 | Storing a value in an aligned field that held zero adds exactly its byte swap to the sum of the block. |
| `Checksum.ChecksumRust` | rush/src/checksum.rs:12-30 | The reference loop returns the specified checksum of the first `length` bytes with initial value 0, odd lengths included. |
| `Checksum.ChecksumX86` | rush/src/checksum.rs:63-143 | The x86_64 routine, register by register, returns the specified checksum for every data, length and initial value; so it equals the reference loop and the aarch64 routine. |
| `Checksum.ChecksumArm` | rush/src/checksum.rs:146-215 | The aarch64 routine returns the same value for every data, length and initial value. |
| `Checksum.TailX86` | rush/src/checksum.rs:81-117 | Labels 2 to 6 consume exactly what the 32-byte blocks leave over, and no carry is lost. |
| `Checksum.TailArm` | rush/src/checksum.rs:168-192 | The size bits select loads that consume exactly the rest, with each carry left pending for the next block. |
| `Checksum.FoldX86` | rush/src/checksum.rs:119-134 | Folding 64 to 32 to 16 bits, complementing and swapping yields the swapped complement of the canonical sum, for every accumulator. |
| `Checksum.FoldArm` | rush/src/checksum.rs:195-205 | The same for the aarch64 fold, which takes in a pending carry and adds the last carry by a shifted add. |
| `Checksum.FoldPending` | rush/src/checksum.rs:196-198 | The 32-bit add that takes in the deferred carry leaves its own carry out in a state that `adc wzr` cannot lose. |
| `Checksum.AddCarryKeeps` | rush/src/checksum.rs:71-126 | One add with carry keeps sum plus carry in its class and keeps the pair off all ones with carry set, at 64, 32 and 16 bits. |
| `Checksum.CloseCarry` | rush/src/checksum.rs:77-77 | A closing `adc 0` adds the pending carry without overflow, in every reachable state of a chain. |
| `Checksum.Accumulate` | rush/src/checksum.rs:156-192 | Every accumulating instruction, of 8, 4, 2 or 1 bytes, keeps the accumulator worth the words consumed so far. |
| `Checksum.LittleEndianSame` | rush/src/checksum.rs:73-76 | A wide little-endian load is worth the sum of its 16-bit words. |
| `Checksum.SizeBits` | rush/src/checksum.rs:169-190 | The five size bits tested by `tbz` add up to exactly what `ands ~31` leaves over. |
| `Headers.ComputedIpChecksumOk` | rush/src/ipv4.rs:184-192 | Every header passes `checksum_ok` after `checksum_compute`. |
| `Headers.ComputedTransportOk` | rush/src/tcp.rs:82-91 | A TCP or UDP checksum computed from the complement of the pseudo header's verifies over pseudo header, header, options and payload together. |
| `Headers.TransportChecksumIs` | rush/src/udp.rs:64-73 | Chaining header and payload onto the pseudo header sums all three as one block. |
| `Headers.PseudoHeaderSum` | rush/src/ipv4.rs:194-206 | The pseudo header's sum is that of the addresses at offsets 26 to 33, the protocol and the length, each as it is stored. |
| `Headers.IpChecksumCompute` | rush/src/ipv4.rs:184-188 | In place, the header checksum field gets the checksum of the header with that field zeroed, and no other byte changes. |
| `Headers.TransportChecksumCompute` | rush/src/tcp.rs:82-91 | In place, the checksum field gets the chained checksum over header and payload with that field zeroed, and no other byte changes. |
| `Offload.MaybeFillInChecksum` | rush/src/offload.rs:48-96 | In place, exactly the packets whose field holds the seed value get their checksum; all others, and all other bytes, stay as they are. |
| `Offload.FilledVerifies` | rush/src/offload.rs:65-76 | A left-out TCP or UDP checksum is filled in so that the segment or datagram verifies, and nothing but the checksum field changes. |
| `Offload.SumsWithinExactly` | rush/src/offload.rs:56-93 | What the app sums stays within the packet buffer if and only if every frame whose checksum is left out has a whole TCP or UDP header; the 16-bit lengths wrap. |
| `Offload.ShortFrameRunsOut` | rush/src/offload.rs:56-77 | A TCP frame of 40 bytes whose buffer holds the seed at the checksum would be summed beyond the buffer. |
| `Offload.FillInVerifies` | rush/src/offload.rs:48-96 | After the app, every TCP segment and UDP datagram whose checksum was left out verifies. |
| `Offload.FillInOnlyLeftOut` | rush/src/offload.rs:48-96 | Nothing changes unless the frame's own bytes say IPv4 without options, TCP or UDP, with the seed in the checksum field at offset 50 or 40; and then that field only. |
| `Offload.FillInKeepsGood` | rush/src/offload.rs:68-95 | The app never breaks a segment or a datagram: one that verifies before does so after. |
| `Offload.ForwardTcpSegments` | rush/src/offload.rs:134-187 | The in-place loop transmits exactly the specified frames, in order, or the packet as it is when it is not IPv4, has IP options, is not TCP or fits the MSS. |
| `Offload.EmitSegment` | rush/src/offload.rs:159-185 | One turn transmits the specified segment and leaves the rewritten header ready for the next one, with the sequence number advanced mod 2^32. |
| `Offload.SegmentLoop` | rush/src/offload.rs:156-186 | The loop over offset and remaining length, rewriting one packet buffer in place, sends the whole list of segments. |
| `Offload.SetLengthsOk` | rush/src/offload.rs:162-169 | The rewritten header has a verifying IP checksum, total length equal to the frame length minus 14, and the seed in the TCP checksum field; flags, ID and all other bytes are the original's. |
| `Offload.SegmentCompletes` | rush/src/offload.rs:65-76 | The seed the segmenter leaves always triggers the fill-in, after which the IP and TCP checksums of the segment both verify and only the TCP checksum has changed. |
| `Offload.SegmentCount` | rush/src/offload.rs:156-186 | There are ceil(payload/mss) segments. |
| `Offload.SegmentAt` | rush/src/offload.rs:159-185 | Segment i carries the next mss bytes, or what is left, with sequence number seq + i*mss mod 2^32. |
| `Offload.PayloadsConcatenate` | rush/src/offload.rs:170-184 | The segments' payloads concatenate to the original payload. |
| `Offload.SplitIntoSegments` | rush/src/offload.rs:134-187 | For every packet that is split: more than one frame, ceil(payload/mss) of them, and their payloads make up the original payload. |
| `Offload.SplitExactly` | rush/src/offload.rs:139-165 | Read off the frame's own bytes: a packet is sent as more than one frame if and only if it is IPv4 without options, TCP, and has more than mss bytes after 34 and the TCP header's size; every other packet is sent as it is, once. |
| `Offload.PayloadKept` | rush/src/offload.rs:159-186 | For every packet, split or not, the payloads of the frames sent make up the bytes from its data offset, or its end if that comes first. |
| `Offload.SegmentsComplete` | rush/src/offload.rs:36-187 | Running the segmenter and then the Checksum app: every segment has its place, length and sequence number, and both its checksums verify, whatever else was in the packet buffers. |
| `BreatheOrder.ComputeBreatheOrder` | rush/src/engine.rs:225-296 | For every iteration order of the hash tables the loop ends, and what is computed is a complete run: rounds whose dependents were collected and visited in some order that hashing allows, from the pull apps sorted by name. |
| `BreatheRuns.RunExhales` | rush/src/engine.rs:225-296 | Every complete run of a graph exhales no app twice and only push-capable apps reachable from a pull app through push-capable apps; and all of them, as long as none of its rounds can lose one. |
| `BreatheRuns.NoSelfLinksLossless` | rush/src/engine.rs:261-273 | Without links from an app to itself no round of any run can lose one, so every run exhales all of them. |
| `BreatheRuns.RunCovers` | rush/src/engine.rs:257-295 | No deferred app is lost by rounds that cannot lose one: what is exhaled and collected always leads to everything still to be exhaled. |
| `BreatheRuns.OrderDetermined` | rush/src/engine.rs:219-296 | If no round of some run has a dependent that is both fed by a dependent and feeds one, all runs of the graph exhale the same list. |
| `DelayOrders.DeterminedExactly` | rush/src/engine.rs:260-273 | Over every order of the dependents and of their successors: a round without self-links has the same survivors in all of them if and only if no dependent both is fed by a dependent and feeds one. |
| `DelayOrders.SurvivorsAreUnfed` | rush/src/engine.rs:260-273 | Where there is no such dependent, exactly those that no dependent feeds survive, in every order. |
| `DelayOrders.FirstVisit` | rush/src/engine.rs:261-271 | Any link between two dependents can be visited first, and then its start survives and its end does not. |
| `DelayOrders.SuccessorOrderIrrelevant` | rush/src/engine.rs:262-271 | For one order of the dependents, the round without self-links does not depend on the order in which successors come. |
| `DelayLosses.LossExactly` | rush/src/engine.rs:260-273 | Some order of visits leaves survivors that do not lead to all dependents if and only if there are dependents fed by none but themselves, and some order of a few of these, each linked to itself or from an earlier one, which link to all of them, while some other dependent outlasts them. It holds for all rounds, with self-links and without. |
| `DelayLosses.LossExplained` | rush/src/engine.rs:260-273 | Every order of visits that loses an app comes about in that way. |
| `DelayLosses.LossHappens` | rush/src/engine.rs:260-273 | And wherever there are such dependents, some order of visits removes them all. |
| `DelayLosses.NoSelfLinkNoLoss` | rush/src/engine.rs:264-269 | Without a link from a dependent to itself nothing is lost. |
| `DelaySteps.Delay` | rush/src/engine.rs:260-273 | The two inner loops carry out one order of visits, whichever the hash tables give. |
| `BreatheOrder.Round` | rush/src/engine.rs:257-295 | One round is one round of a run, and exhales at least one new app. |
| `BreatheOrder.RunProgress` | rush/src/engine.rs:257-295 | Between the rounds of every run no app is listed twice, and what is exhaled or collected is to be exhaled. |
| `BreatheOrder.Collect` | rush/src/engine.rs:280-292 | Collecting follows the apps just exhaled in their order, and the successors of each in any. |
| `BreatheOrder.CollectOrderIs` | rush/src/engine.rs:280-292 | In every such order each push-capable successor that is not exhaled yet is collected once, and nothing else. |
| `BreatheOrder.BuildSuccessors` | rush/src/engine.rs:229-233 | The successor map holds exactly the links. |
| `BreatheOrder.Inhalers` | rush/src/engine.rs:235-241 | The inhalers are exactly the pull apps, sorted and without repeats. |
| `BreatheOrder.SortedUnique` | rush/src/engine.rs:240-241 | Sorting undoes whatever order hashing chose. |
| `BreatheWitnesses.OrderNotDetermined` | rush/src/engine.rs:219-224 | The comment's claims of determinism and of following links are false: one graph, whose links have no cycle, has a complete run that exhales along a link and one that exhales against it. |
| `BreatheWitnesses.SelfLinkLosesApp` | rush/src/engine.rs:264-269 | One graph with an app linked to itself has a complete run that never exhales it, though it is to be exhaled. |
| `BreatheWitnesses.SoleDependentStays` | rush/src/engine.rs:264-267 | A self-link loses nothing in a round of one dependent, since one is always kept. |
| `BreatheWitnesses.LoopWithExit` | rush/src/engine.rs:264-269 | Nor does it in every larger round: four dependents with a self-link that no order of visits loses. |
| `Engine.EngineState.Configure` | rush/src/engine.rs:146-175 | From any wired state, `configure(c)` realises c: links in both keep their objects, and so packets and counters; new links are new and empty; apps of equal configuration keep their instance and all others are new, every app running an instance of its own built from the very configuration asked for; and the breathe order is that of a complete run for c, exhaling every app it should unless there are self-links. |
| `Engine.WiringDetermined` | rush/src/engine.rs:169-172 | History independence: any two networks that realise one well-formed configuration, for one the result of configuring it from empty, use the same ports for links of the same names. |
| `Engine.OutputPorts` | rush/src/engine.rs:197-205 | An output port is in use exactly when the configuration has a link on it, and then for that link. |
| `Engine.InputPorts` | rush/src/engine.rs:197-205 | The same for input ports. |
| `Engine.EngineState.RemoveLinks` | rush/src/engine.rs:149-153 | The first loop leaves exactly the links that stay, and no app holds one that is gone. |
| `Engine.EngineState.StopApps` | rush/src/engine.rs:155-162 | The second loop stops exactly the apps that are gone or changed. |
| `Engine.EngineState.StartApps` | rush/src/engine.rs:164-168 | The third loop starts exactly the missing apps, as new instances with no links, no two the same, each built from the configuration kept beside it. |
| `Engine.EngineState.BuildLinks` | rush/src/engine.rs:170-172 | The fourth loop connects every link of the configuration on both ends, reusing the link objects that are there; any other is new and empty. |
| `Engine.EngineState.LinkApps` | rush/src/engine.rs:197-205 | One link is created or reused, and put on both its ports. |
| `Engine.EngineState.UnlinkApps` | rush/src/engine.rs:208-215 | One link is taken off the table and off both its ports. |
| `Engine.Migrated` | rush/src/engine.rs:146-175 | The four loops together realise the configuration and keep what both configurations share. |
| `Engine.ConnectFrames` | rush/src/engine.rs:201-204 | Connecting a link leaves links on other ports connected. |
| `DelayQueues.DelayQueue.Pull` | rush/src/qos.rs:82-89 | The pull loop sends and keeps exactly what the drain of the queue says. |
| `DelayQueues.DelayQueue.NeedTx` | rush/src/qos.rs:188-200 | The head asks for a transmission exactly when it is a packet or a due marker, and a due marker is taken off. |
| `DelayQueues.DrainPanics` | rush/src/qos.rs:188-207 | A pull panics if and only if some marker with no packet behind it, and everything before it, is due. |
| `DelayQueues.DrainRefines` | rush/src/qos.rs:188-207 | A pull that does not panic sends, in order, exactly what a queue with a time stamp on every packet would release. |
| `Qos.LatencyApp.Push` | rush/src/qos.rs:68-80 | The push method changes queue and link exactly as one batch: a marker if there is room and a packet, then packets while there is room; it leaves packets on the link only with the queue full. |
| `Qos.LatencyPushRefines` | rush/src/qos.rs:72-79 | A push refines stamping every accepted packet with its own due time; and it keeps every marker followed by a packet exactly when it does not find exactly one free slot. |
| `Qos.PushFills` | rush/src/qos.rs:72-79 | A push takes all there is room for: it leaves packets on the link only if it fills the queue, never overfills it, and spends one slot on the marker. |
| `Qos.LatencyPanicsExactly` | rush/src/qos.rs:66-90 | A run with non-decreasing time panics if and only if some push finds exactly one free slot and some later pull comes when its packets would be due, whatever is pushed and pulled in between. |
| `Qos.PushKeepsHole` | rush/src/qos.rs:72-79 | No later push fills the gap that such a push leaves: it begins with a marker. |
| `Qos.LatencyRefines` | rush/src/qos.rs:66-90 | On every run with non-decreasing time, as long as no pull has panicked, the packets sent are the reference queue's. |
| `Qos.ReferenceInOrder` | rush/src/qos.rs:86-88 | The reference sends in arrival order what was accepted, and after a pull at `now` holds only packets pushed at t with t + ms > now. |
| `Qos.AcceptsAllExactly` | rush/src/qos.rs:68-80 | Over any run everything offered is taken in, in order, if and only if every push that offers packets finds slots for them and their marker; and never more than was offered. |
| `Qos.EverythingDelivered` | rush/src/qos.rs:66-90 | Where the capacity is enough for a run, no pull panics and what was offered has been sent, in order and once, or waits; and a pull `ms` after everything else has sent it all. |
| `Qos.ReleaseExact` | rush/src/qos.rs:86-88 | On a queue in order of due times a pull releases the longest prefix that is due, and nothing after it. |
| `Jitters.JitterApp.Push` | rush/src/qos.rs:120-141 | The push loop, for every draw of delays: link, queue and output end as the turns specify, and packets stay on the link only with the queue full. |
| `Jitters.TurnRefines` | rush/src/qos.rs:126-140 | A turn refines the reference, where a packet is released at the maximum of the markers at or before it; and it keeps every marker followed by a packet exactly when it does not put a marker in the last free slot. |
| `Jitters.TurnTakes` | rush/src/qos.rs:126-140 | A turn takes its packet if and only if there is a slot for it, and for its marker if it has one: to the output at once when reordering lets it, otherwise to the end of the queue; a marker alone fills the queue, and a full queue changes nothing. |
| `Jitters.PushIsOffers` | rush/src/qos.rs:120-141 | A push is the run of one offer for each waiting packet, each with its own draw, from wherever the run stood. |
| `Jitters.JitterRefines` | rush/src/qos.rs:118-151 | On every run with non-decreasing pulls, as long as none has panicked, what was sent or bypassed is the reference's, with markers that waited for their packet included. |
| `Jitters.JitterPanicsExactly` | rush/src/qos.rs:118-151 | A run panics if and only if one of its pulls finds, all due, a marker with no packet behind it and everything before it. |
| `Jitters.NoLastSlotNoPanic` | rush/src/qos.rs:126-140 | So no run panics in which no marker takes the last free slot. |
| `Jitters.LastSlotFilled` | rush/src/qos.rs:129-139 | But one that does may get its packet later: a run that goes on and sends everything. |
| `Jitters.JitterConserves` | rush/src/qos.rs:133-139 | Every packet taken is bypassed or queued exactly once, the queued ones leave in order, and without reordering output order is input order. |
| `Jitters.EverythingTaken` | rush/src/qos.rs:118-151 | Where the capacity is enough for a run, every packet offered is taken and no pull panics. |
| `Jitters.LossPush` | rush/src/qos.rs:31-43 | For every sequence of draws, the output gets exactly the survivors, in order, and the input ends empty. |
| `Jitters.SurvivorsExactly` | rush/src/qos.rs:35-42 | Each packet whose draw lets it through is at the place that those before it leave, and no other packet is among the survivors. |
| `RateLimiters.RateLimiterApp.Push` | rush/src/qos.rs:286-318 | One push replenishes at most once per 100 us tick and polices the whole input link: the forwarded packets, in order, and the tokens left are as specified. |
| `RateLimiters.PoliceSpends` | rush/src/qos.rs:307-317 | Tokens spent are exactly 10^6 times the bits forwarded, and every packet is forwarded or dropped. |
| `RateLimiters.ForwardsExactly` | rush/src/qos.rs:307-317 | Each packet is forwarded if and only if the tokens at the start pay for it and all that was forwarded before it, and is dropped otherwise. |
| `RateLimiters.ForwardsAllExactly` | rush/src/qos.rs:307-317 | A push forwards everything, and drops nothing, if and only if the tokens pay for everything. |
| `RateLimiters.NewBucketHolds` | rush/src/qos.rs:257-270 | A new bucket holds the ten-thousandth part of its capacity, which is 10^6 times the rate: exactly, for rates below 2^64/10^6, and as 64 bits hold it above. |
| `RateLimiters.ReplenishHolds` | rush/src/qos.rs:292-301 | Less than 100 us after the last replenishment a push adds nothing; otherwise the bucket holds the tokens left plus the rate times the whole microseconds since, as 64 bits hold them, or its capacity if that is less. |
| `RateLimiters.ReplenishBound` | rush/src/qos.rs:291-304 | Replenishing never grants more than the rate times the time it accounts for, even where 64-bit sums wrap, and leaves less than one tick unaccounted for. |
| `RateLimiters.RunBound` | rush/src/qos.rs:286-318 | Over any run, bits forwarded and credit left are paid for by the credit at the start and the time that passed. |
| `RateLimiters.ForwardedBetween` | rush/src/qos.rs:291-317 | Between any two pushes, bits forwarded times 10^6 are at most the tokens left plus rate*(elapsed + 100 us), and so at most rate*(10^6 + elapsed + 100) us; stated in nanoseconds, without assuming the absence of wrap-around. |
| `RateLimiters.ForwardedFromStart` | rush/src/qos.rs:257-270 | From the first push on a fresh limiter forwards at most rate*(100 us + elapsed). |
| `RateLimiters.CreditGranted` | rush/src/qos.rs:292-301 | Despite truncating to whole microseconds, while the bucket never caps the credit granted is at least 100/101 of the rate times the time up to the last replenishment. |
| `RateLimiters.ConformingPasses` | rush/src/qos.rs:286-318 | While the bucket never caps, traffic passes whole if at every push what was offered so far costs no more than the tokens at the start and 100/101 of the rate times the time passed, less one tick. |
| `Packets.PaddingBelow60` | rush/src/packet.rs:145-151 | The least a frame takes on the wire is 84 bytes; below 60 padding makes up for it, and from there every byte counts. |
| `Packets.Freelist.PreallocateStep` | rush/src/packet.rs:82-97 | Growing stores one step of fresh packets and doubles the step; it panics exactly when 511000 packets exist. |
| `Packets.Freelist.Allocate` | rush/src/packet.rs:104-110 | Allocation hands out a packet that was not in use, and panics exactly when all 511000 are in use. |
| `Packets.Freelist.Free` | rush/src/packet.rs:124-135 | A packet in use always fits back on the list. |
| `Packets.GrowKeepsSchedule` | rush/src/packet.rs:88-95 | The allocated count is always 1000*(2^k - 1), at most 511000. |
| `Packets.TakeSound` | rush/src/packet.rs:104-110 | Taking keeps every packet either on the list or in use, and fails exactly with 511000 in use. |
| `Packets.GiveSound` | rush/src/packet.rs:124-129 | Giving back keeps that too, and the freelist-overflow panic is unreachable. |
| `Links.Link.Receive` | rush/src/link.rs:52-59 | Receiving takes the head of the queue, and the counters follow. |
| `Links.Link.Transmit` | rush/src/link.rs:62-72 | Transmitting appends to the queue, or drops and counts exactly when 1023 packets are queued. |
| `Links.Link.Cursors` | rush/src/link.rs:44-46 | The cursor tests mean empty and full, and the ring never holds more than 1023. |
| `Links.FirstInFirstOut` | rush/src/link.rs:52-72 | On every run: received followed by queued is what was accepted, in order; packets and bytes sent and received differ by what is queued; and offered packets are the accepted and the dropped ones. |
| `Links.Link.Counters` | rush/src/link.rs:52-72 | In every valid link the packet counters differ by the number of packets queued and the byte counters by the bytes queued, and packets sent and dropped are all that were offered. |
| `Links.SendAllOffers` | rush/src/link.rs:62-72 | Sending any packets keeps those that fit, in order, and drops the rest. |
| `Ownership.StepOwned` | rush/src/packet.rs:104-135 | Every operation (allocate, free, receive, transmit, enqueue, open and close a link or queue) keeps each packet in exactly one place. |
| `Ownership.RunOwned` | rush/src/packet.rs:82-135 | Any program, from any state in which every packet is in one place, keeps that, or ends in a panic other than the freelist overflowing. |
| `Ownership.AlwaysOwned` | rush/src/packet.rs:82-135 | Across all runs every allocated packet is in exactly one place, the counts add up to the allocated count, at most 511000, and the freelist never overflows. |
| `BasicApps.SinkPush` | rush/src/basic_apps.rs:43-50 | Sink empties all its inputs onto the freelist and touches nothing else. |
| `BasicApps.JoinPush` | rush/src/basic_apps.rs:65-75 | Join moves its inputs' packets, one input after the other and each in order, to its output, dropping what does not fit. |
| `BasicApps.SourcePull` | rush/src/basic_apps.rs:18-28 | Source offers 102 fresh packets to every output and touches nothing else; it fails only when no packet is left. |
| `BasicApps.TeePush` | rush/src/basic_apps.rs:90-105 | Tee empties all its inputs and offers every output one copy of each of their packets; it fails only when no packet is left. |
| `LinkApps.SourcePull` | rush/src/basic_apps.rs:18-28 | Source sends every output 102 packets, each of its size in zeros, and touches nothing else. |
| `LinkApps.TeePush` | rush/src/basic_apps.rs:90-105 | Tee sends every output a copy of every packet, with its contents, one input after the other and each in order; all inputs end empty. |
| `BasicApps.Drop` | rush/src/link.rs:77-81 | A link or delay queue that goes out of scope frees all its packets. |
| `BasicApps.Forward` | rush/src/basic_apps.rs:65-75 | Emptying one link into another, for any two links. |
| `BasicApps.ProgramsCompose` | rush/src/engine.rs:369-380 | Two programs, one after the other, are one. |
| `Breathing.Breathe` | rush/src/engine.rs:369-380 | The loops call the pulls of the inhalers and then the pushes of the exhalers, in the order of the two lists, up to the first panic. |
| `Breathing.BreathOwned` | rush/src/engine.rs:369-380 | From any state in which every packet is in exactly one place, a breath ends in one, or in a panic other than the freelist overflowing; for any two lists and whatever each app does. |
| `Breathing.EngineKeepsPackets` | rush/src/engine.rs:146-175 | After any sequence of breaths and reconfigurations every allocated packet is on the freelist, on one link or in one delay queue, none in hand; the counts add up to at most 511000. |
| `Splits.MatchIsCover` | rush/src/flow.rs:66-101 | For IPv4 without options, a packet matches a flow exactly when the tuple that Top profiles it as is one of the flow's. |
| `Splits.MatchExactly` | rush/src/flow.rs:66-101 | Read off the frame's own bytes: a packet matches if and only if it is IPv4 without options, of the flow's address and protocol unless these are zero, and, if the flow is TCP or UDP, with its source or destination port in range. |
| `Splits.OthersGoToDefault` | rush/src/flow.rs:68-72 | Packets other than IPv4, and IPv4 packets with options, go to `default` whatever the flows. |
| `Splits.LowIhlDisagrees` | rush/src/flow.rs:72-101 | With an IHL below 5 they disagree: Split still looks at ports, and Top does not. |
| `Splits.FindOutput` | rush/src/flow.rs:52-61 | The loop finds the output of the route. |
| `Splits.RouteIsFirstMatch` | rush/src/flow.rs:54-59 | The route is the label of the first matching flow, and `default` when none matches. |
| `Splits.SplitPush` | rush/src/flow.rs:49-63 | The input is emptied, and every output is sent exactly the packets routed to it, in order. |
| `Splits.SplitConserves` | rush/src/flow.rs:52-62 | Every packet goes to exactly one output. |
| `FlowIds.FlowIdIs` | rush/src/flow.rs:246-248 | The fields of an ID do not overlap: joining them adds them. |
| `FlowIds.UnpackFlowId` | frontend/client/client.js:264-281 | A client recovers address, protocol and port from an ID, whether it reads the word signed or unsigned. |
| `FlowIds.MurmurHash64` | rush/src/flow.rs:256-263 | The sequence of reassignments computes the specified mix. |
| `FlowIds.MixIsABijection` | rush/src/flow.rs:256-263 | The 64-bit mix is a bijection: an explicit inverse undoes it on both sides. |
| `FlowIds.CollisionsComeFromTheMask` | rush/src/flow.rs:250-252 | Different IDs in one slot differ in the hash bits above the eleven of the mask. |
| `FlowTops.FlowTopInc` | rush/src/flow.rs:238-244 | One slot counts one packet and its bits, wrapping, and takes the ID; the others stay. |
| `FlowTops.FlowCount` | rush/src/flow.rs:158-196 | The tuple counted for a packet: zeros unless IPv4, and a port only for TCP and UDP without IP options. |
| `FlowTops.IdReadsBack` | rush/src/flow.rs:158-196 | The ID counted for a frame, read back signed or unsigned, is what the frame's bytes say: zeros unless IPv4, and a port at offset 34 or 36 only for TCP and UDP without options. |
| `FlowTops.TopPush` | rush/src/flow.rs:147-155 | Every packet is counted, in order, and passed on unchanged. |
| `FlowTops.SlotCounts` | rush/src/flow.rs:238-244 | After any packets, each slot has grown by exactly the packets and wire bits that hash to it, mod 2^64. |
| `FlowTops.SlotNamesLast` | rush/src/flow.rs:119-124 | Each slot names the flow of the last packet that fell into it, and is not changed by others. |
| `FlowTops.TotalsGrow` | rush/src/flow.rs:238-244 | Packet and bit totals over all slots grow by exactly what was counted, up to multiples of 2^64. |
| `FlowTops.TotalsGrowExactly` | rush/src/flow.rs:238-244 | And exactly, as long as they fit 64 bits. |
| `FlowTops.EmptyIsHashed` | rush/src/flow.rs:198-212 | A profile file that was just created satisfies the slot invariant, with totals zero. |
| `FlowTops.CountKeepsHashed` | rush/src/flow.rs:238-252 | Every slot in use names a flow that hashes to that slot, whatever is counted. |
| `Profiles.Parse` | frontend/client/client.js:260-291 | The loop over 2048 slots builds the specified snapshot, for signed and unsigned readers. |
| `Profiles.KeysAreInjective` | frontend/client/client.js:277-286 | A snapshot key parses back to its flow, so different tuples have different keys. |
| `Profiles.FlowCovers` | frontend/client/client.js:277-285 | The flow shown for a slot covers exactly the tuples of its address, protocol and port, zero meaning any. |
| `Profiles.ProfiledMatches` | frontend/client/client.js:277-285 | Entered as a flow, it matches every IPv4 packet without options that was counted under it. |
| `Profiles.AddressPrints` | frontend/client/flow.js:109-115 | The address counted prints as the octets at bytes 26 to 29 of the frame, or 30 to 33 for destinations. |
| `Profiles.KeysAreNotShared` | frontend/client/client.js:282-290 | No two slots in use have one key. |
| `Profiles.SnapshotIsFaithful` | frontend/client/client.js:260-291 | A snapshot has exactly one entry for each slot in use, with that slot's counts, and nothing else. |
| `Profiles.ReadersAgree` | frontend/client/client.js:264-281 | Signed and unsigned readers get the same snapshot if and only if no counter of a slot in use has passed 2^63. |
| `FlowString.PtonNtop` | frontend/client/flow.js:97-115 | Parsing a printed address gives it back, for every 32-bit address, though the shift that prints it keeps the sign. |
| `FlowString.ParseProtocolString` | frontend/client/flow.js:43-47 | Parsing a printed protocol gives it back, for every 8-bit protocol, by name, by number and as any. |
| `FlowString.ParsePortsString` | frontend/client/flow.js:71-75 | What parsing a printed port range gives, for every range. |
| `FlowString.PrintParses` | frontend/client/flow.js:28-77 | Parsing a printed flow gives the flow back exactly when its ports are in order and it is not a range from zero to anything between: there the misspelt `ports_max` prints any port. |
| `FlowString.PartsLeftOut` | frontend/client/flow.js:28-60 | An expression without ports, or without protocol and ports, parses as with `*` in their place: any protocol, and ports 0 to 65535. |
| `FlowString.ParseGivesValid` | frontend/client/flow.js:28-60 | Whatever parses is in range, with its ports in order. |
| `FlowString.ParsedPrints` | frontend/client/flow.js:28-77 | So an entered expression survives printing exactly when its range does not start at zero and end between. |
| `FlowString.RangeFromZeroIsLost` | frontend/client/flow.js:72-73 | A range from 0 to 80 prints as any port. |
| `Configs.FormatParses` | rush/src/config.rs:52-73 | Parsing a printed link gives the link back. |
| `Configs.ParseGivesWords` | rush/src/config.rs:68-69 | Whatever parses has words for names. |
| `Configs.CanonicalForm` | rush/src/config.rs:75-77 | Canonicalising is idempotent, and two strings have one canonical form exactly when they parse to one link. |
| `Configs.Config.AddLink` | rush/src/config.rs:46-48 | A link is added in canonical form. |
| `SyntheticNames.SanitizeLabels` | rush/src/synthetic_network.rs:387-408 | Accepts exactly the specifications whose labels are words, not `default` and pairwise different. |
| `SyntheticNames.NamesApartExactly` | rush/src/synthetic_network.rs:134-178 | Different apps have different names if and only if interface names clash neither with one another, nor with what is named after the other one, nor anything named after them with a chain. |
| `SyntheticNames.OrdinaryNamesDoNotClash` | rush/src/synthetic_network.rs:134-178 | They do not clash when neither begins like a stage of a chain and neither is the other, or the other with a suffix in use: a condition on the two names alone, whatever the labels. |
| `SyntheticNames.OrdinaryIsAcceptable` | rush/src/synthetic_network.rs:134-178 | With such words as names every sanitary specification is acceptable. |
| `SyntheticNames.EthernetIsAcceptable` | rush/src/synthetic_network.rs:134-178 | `eth0` and `eth1` are such names. |
| `SyntheticNames.NamesAreWords` | rush/src/synthetic_network.rs:297-305 | Every generated name is one the link syntax accepts. |
| `SyntheticNetworks.ConfigureQos` | rush/src/synthetic_network.rs:283-330 | Four apps and five links are added for one chain, with clamped ratios. |
| `SyntheticNetworks.ConfigureFlows` | rush/src/synthetic_network.rs:262-285 | The loop adds the chain of every flow, and nothing else. |
| `SyntheticNetworks.ConfigureSplit` | rush/src/synthetic_network.rs:232-251 | The loop builds the flow vector, one entry for each flow in order. |
| `SyntheticNetworks.ConfigureSyntheticNetwork` | rush/src/synthetic_network.rs:126-194 | For words as interface names and a sanitary specification, the configuration generated has exactly the wanted names and exactly the wanted links; and each app is configured as wanted unless names clash. |
| `SyntheticProperties.FlowConditions` | rush/src/synthetic_network.rs:283-330 | Each way, the chain of every flow has the rate, loss, latency, jitter, strength and reordering specified for that flow and that way, ratios brought to the nearest in 0 to 1, and queues of 100,000. |
| `SyntheticProperties.DefaultConditions` | rush/src/synthetic_network.rs:159-190 | And the chains for all other traffic have those of the default link. |
| `SyntheticProperties.BothServed` | rush/src/synthetic_network.rs:132-187 | Each interface has a segmenter of MSS 1400, a Checksum app, a Join, and a Split and a Top that look at the same end: sources for the outer interface, destinations for the inner one; Split by the flows' own labels, addresses, protocols and ports. |
| `SyntheticNetworks.WireInjective` | rush/src/synthetic_network.rs:126-194 | No two wanted links end at one port. |
| `SyntheticNetworks.LinkTextParses` | rush/src/synthetic_network.rs:196-260 | The texts put together for links parse to the wanted links and are canonical. |
| `SyntheticProperties.NetworkIsWellFormed` | rush/src/synthetic_network.rs:126-194 | Where names do not clash every link endpoint is a configured app and no port is used twice. |
| `SyntheticClashes.WellFormedExactly` | rush/src/synthetic_network.rs:126-194 | And only there: what is generated is well-formed if and only if no names clash. |
| `SyntheticClashes.SoundDoesNotClash` | rush/src/synthetic_network.rs:126-194 | In a well-formed network the links of two apps of one name lead to and come from apps of one name, which ends in names that cannot be equal; so there are no two. |
| `SyntheticClashes.SameInterfaceClashes` | rush/src/synthetic_network.rs:134-154 | An interface that is called like the other one, or like anything named after it, gives a network that is not well-formed. |
| `SyntheticClashes.StageNameClashes` | rush/src/synthetic_network.rs:297-304 | So does an interface called `rate_ingress`. |
| `SyntheticProperties.UnwrappedPortsAreLinked` | rush/src/synthetic_network.rs:126-329 | Every port that an app of the network unwraps is linked. |
| `SyntheticProperties.PathCrossesOneChain` | rush/src/synthetic_network.rs:136-160 | Every path from one interface to where it first gets to the other crosses exactly one rate limiter, loss, latency and jitter, in this order, all of one flow or of the default link. |
| `SyntheticProperties.RouteIsAPath` | rush/src/synthetic_network.rs:262-329 | And there is such a path for every flow and for the default link. |
| `SyntheticProperties.EveryAppExhaled` | rush/src/engine.rs:225-296 | Every app of the network is reachable from a pull app through push-capable apps. |
| `SyntheticProperties.NetworkHasNoSelfLinks` | rush/src/synthetic_network.rs:126-329 | No app of the network is linked to itself. |
| `SyntheticProperties.Run` | rush/src/synthetic_network.rs:46-57 | From specification to running engine: the network is realised and every app is exhaled exactly once per breath, whatever ran before and whatever order hash tables are iterated in. |
| `SyntheticOrders.NetworkHasNoRelays` | rush/src/engine.rs:257-295 | In no round of any run for a generated network does a dependent feed another one. |
| `SyntheticOrders.NetworkOrderDetermined` | rush/src/engine.rs:219-224 | So the breathe order of every generated network is determined, whatever order hash tables are iterated in. |

## Left out

- Raw sockets, signals, JSON and file reading, mapping of the flow-top file: foreign calls. Raw sockets appear only as apps of a network, the flow-top file as an array.
- The DMA allocator, the HTTP and user-interface parts of the front end, `flowIndex`, `removeFlow` and `matchFlow`.
- Random distributions and floating-point thresholds: every draw of Loss and Jitter is an arbitrary choice; ratios are real numbers, so NaN has no counterpart.
- The wall clock, sleep pacing, reports and statistics of the engine: time is a non-decreasing input of pulls and pushes.
- The dispatch of `breathe` to app objects: what an app does to packets is a parameter of `Breathing.Breathe`.
- The push loops of the Checksum and TSD apps over their links: per packet only. Packets on links there are frames without the rest of their buffer.
- Offload.MaybeFillInChecksum: a frame too short for its TCP or UDP header whose bytes at the checksum hold the seed is excluded (`HeadersFit`); exactly there the source sums beyond its buffer (`Offload.SumsWithinExactly`). All other short frames are covered.
- DelayOrders.DeterminedExactly: over every order of a round's dependents. A list is collected app by app, so that in a given graph not all orders need occur; there the condition is sufficient (`BreatheRuns.OrderDetermined`).
- DelayLosses.LossExactly: likewise over every order, and within the round; in a given graph the condition is sufficient for completeness (`BreatheRuns.RunExhales`), and an app that a round loses may be collected again from elsewhere.
- Engine.EngineState.Configure: freeing the packets on removed links is `BasicApps.Drop`, not part of this method; `stop` callbacks have no effect here.
- Links.Link.Receive: the panic on an empty link is a requirement; every caller modelled tests for emptiness first. Link counters do not wrap.
- Links.Link.Transmit: link counters do not wrap at 2^64.
- Checksum.ChecksumRust: for slices of at most 2^48 bytes, above which its 64-bit sum could wrap.
- RateLimiters.RateLimiterApp.Push: the elapsed microseconds are not wrapped at 2^64, some 584,000 years.
- BasicApps.TeePush: packets are addresses there; what the copies contain is in `LinkApps.TeePush`.
- BasicApps.SourcePull: likewise, with `LinkApps.SourcePull`.
- LinkApps.TeePush: allocation does not fail there; that is in `BasicApps.TeePush`.
- Splits.MatchIsCover: for an IHL of 5. Below 5, which is not a valid header, Split looks at ports and Top does not, so the two disagree (`Splits.LowIhlDisagrees`).
- Ownership.AlwaysOwned: packets held by a raw socket's driver are not modelled; DMA never holds any.
- Splits.SplitPush: that the default and every flow's output are linked is required, and that no flow is labelled `default`; the source panics otherwise, and `SyntheticProperties.UnwrappedPortsAreLinked` shows that generated networks have them.
- Profiles.SnapshotIsFaithful: counts are exact integers; the client's conversion to a floating-point number rounds above 2^53.
- Configs.FormatParses: `\w` is ASCII letters, digits and the underscore; the regular expressions match more of Unicode.
- FlowString.ParseProtocolString: names that every JavaScript object inherits, which the protocol table would find, are not modelled.
- Segment flags and IP IDs: stated only to be the original's.
- The rule of RFC 768 that a UDP checksum computed as zero is sent as 0xffff: the code does not do it.
- The self-tests, benchmarks and command line of the repository.
