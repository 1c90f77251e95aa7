# Verification of the packet-forwarding and messaging programs

A Dafny model of the concurrent and arithmetic cores of this repository, with proofs of what they
promise. `dafny verify dfyconfig.toml` checks all of it.

**The forwarding pipeline.** `l2fwd-multi-thread` splits forwarding between an I/O lcore and crypto
workers joined by rings. `System.dfy` defines the places a packet can be in and the atomic hand-offs
between them, generic in what is moved. `Pipeline.dfy` runs packets through them, with the program's
counters and a history that influences nothing; `PipelineInvariant.dfy` proves the invariant every
step keeps. On top of it stand the ledgers (`PipelineLedger.dfy`), the refinement of the
run-to-completion program (`PipelineRefinement.dfy`, with its specification and its own loop in
`SingleThread.dfy`), the absence of forwarding loops (`PipelineLoop.dfy`) and quiescence
(`PipelineQuiescence.dfy`). `Ownership.dfy` runs numbered buffers through the same hand-offs: no
buffer is lost, freed twice or used after being freed; `OwnershipRefinement.dfy` shows that, because
of this, writing packets in place is the same as passing values, so every run over shared buffers is
a run of the pipeline; `BufferLoop.dfy` and `BufferBooks.dfy` carry the bound on forwarding loops, the
ledgers and the refinement over to runs over buffers.

**The loops themselves.** `CryptoLoop.dfy` and `IoLoop.dfy` are one iteration of each loop on mbufs
updated in place, over the rings and pool of `Mbufs.dfy`; `LoopMoves.dfy` and `IoMoves.dfy` prove
that every part of such an iteration, between one access to a shared queue and the next, makes moves
of the pipeline, and that the other lcores leave what it has in hand alone meanwhile: so what holds of
the pipeline holds of these loops, however they interleave. `Frames.dfy` and `Cipher.dfy` are the
in-place encryption and decryption on streaming contexts, against CBC (section 6.2 of NIST SP
800-38A) and PKCS#7 padding (section 6.3 of RFC 5652) over an abstract invertible block function.

**Set-up.** `Ports.dfy` pairs the ports, `Lcores.dfy` assigns them to lcores and launches the loops,
`RaceFree.dfy` derives which lcore touches which queue, buffer and counter of the run-to-completion
program, which takes no locks. `PortMap.dfy` reads the pair list from the command line.

**The other programs.** `SimpleMp.dfy` is the two-process messaging protocol and
`SimpleMpProgress.dfy` what it gets done; `RequestScanner.dfy`
the request parser of the assembly web server, `HugePages.dfy` the size printer and parser and the
reservation loop, `Latency.dfy` the latency callbacks with 64-bit wrap-around. `Traffic.dfy`,
`Numerals.dfy` and `Prelude.dfy` hold what several files share.

## What turned out not to hold

- Encryption in place fits the mbuf only up to a payload of 2031 bytes in the program's 2048-byte
  buffers: a larger frame that still fits is written past the end (`Frames.PayloadRoundTrip`, exact
  for every capacity; `Frames.FullBufferOverruns` is an instance). With the default MTU of 1500 no
  received frame is that long. The frame type survives only if it was IPv4 (`Frames.FrameRoundTrip`,
  `Frames.ArpTypeIsLost`).
- The statistics counters of the run-to-completion program are not private to an lcore: its
  throughput test reads the transmit counter of the port it polls, which the lcore polling the
  partner writes. `RaceFree.CountersPrivateIff` gives the exact condition; with the default of one
  port per lcore and two ports it fails (`RaceFree.DefaultPairsTogetherIff`,
  `RaceFree.TwoPortsShareACounter`); for any pairing it is a condition on the port list and the
  ports per lcore alone (`RaceFree.PairsTogetherIff`). The flags and times of that test are shared as
  soon as two lcores poll (`RaceFree.TimesSharedIff`, `RaceFree.TwoPortsShareTheTimes`).
- Enabled lcores below the main one are never started (`Lcores.PartitionIffMainIsLowest`,
  `Lcores.LowerLcoreIsNotStarted`).
- With n enabled lcores, main the lowest, and q ports per lcore, the crypto workers run past the eight
  ring pairs unless n is at most 8 or there are more than q * (n - 9) ports
  (`Lcores.WorkersHaveRingsIff`): ten lcores and one port do (`Lcores.NineWorkersOverrun`).
- The web server tells GET from POST by the length of the verb, so PUT is served as GET
  (`RequestScanner.Scan`, `RequestScanner.PutIsServed`).

## Model

| member | source | states |
|---|---|---|
| Cipher.BitsDetermine | Dpdk-lab/multi_thread/l2fwd-multi-thread/main.c:102-103 | a byte is determined by its bits |
| Cipher.XorBits | Dpdk-lab/multi_thread/l2fwd-multi-thread/main.c:102-103 | each bit of the combination of two blocks is set if and only if the two differ there |
| Cipher.CbcEncryptBlock | Dpdk-lab/multi_thread/l2fwd-multi-thread/main.c:102-105 | ciphertext block j encrypts plaintext block j combined with ciphertext block j - 1, or with the chaining value for j = 0 (section 6.2 of NIST SP 800-38A) |
| Cipher.CbcDecryptBlock | Dpdk-lab/multi_thread/l2fwd-multi-thread/main.c:132-135 | plaintext block j is ciphertext block j decrypted and combined with ciphertext block j - 1, or with the chaining value |
| Cipher.CbcInverse | Dpdk-lab/multi_thread/l2fwd-multi-thread/main.c:87-144 | CBC decryption undoes CBC encryption, from any chaining value, when the block function is invertible (section 6.2 of NIST SP 800-38A) |
| Cipher.CbcEncryptSplits | Dpdk-lab/multi_thread/l2fwd-multi-thread/main.c:102-105 | encrypting in two pieces with the chaining value carried over is encrypting at once |
| Cipher.CbcDecryptSplits | Dpdk-lab/multi_thread/l2fwd-multi-thread/main.c:132-135 | the same for decryption |
| Cipher.UnpadPads | Dpdk-lab/multi_thread/l2fwd-multi-thread/main.c:102-105 | padding is always removable again (section 6.3 of RFC 5652) |
| Cipher.UnpadIff | Dpdk-lab/multi_thread/l2fwd-multi-thread/main.c:132-135 | padding is removed if and only if the data end in k bytes that each hold k, for some k from 1 to 16, and then exactly those k bytes go |
| Cipher.PadBytes | Dpdk-lab/multi_thread/l2fwd-multi-thread/main.c:102-105 | the padded payload is the payload followed by 16 - n % 16 bytes that each hold that number |
| Cipher.Encrypt | Dpdk-lab/multi_thread/l2fwd-multi-thread/main.c:95-105 | the encrypted length is 16 * (n / 16 + 1) |
| Cipher.EncryptIsCbc | Dpdk-lab/multi_thread/l2fwd-multi-thread/main.c:95-105 | block j of the output encrypts a block whose every bit says whether the padded payload and the output block before, or the initial vector, differ there |
| Cipher.Decrypt | Dpdk-lab/multi_thread/l2fwd-multi-thread/main.c:125-135 | the decrypted length never exceeds the input, so it fits the output buffer |
| Cipher.DecryptInvertsEncrypt | Dpdk-lab/multi_thread/l2fwd-multi-thread/main.c:87-144 | decrypting what was encrypted gives back every payload |
| Cipher.EncryptContext.Reset | Dpdk-lab/multi_thread/l2fwd-multi-thread/main.c:97-100 | the context is back in its state after Init |
| Cipher.EncryptContext.Update | Dpdk-lab/multi_thread/l2fwd-multi-thread/main.c:102 | releases the whole blocks received so far, encrypted, and keeps fewer than sixteen bytes |
| Cipher.EncryptContext.Final | Dpdk-lab/multi_thread/l2fwd-multi-thread/main.c:103 | releases the padded rest |
| Cipher.DecryptContext.Reset | Dpdk-lab/multi_thread/l2fwd-multi-thread/main.c:127-130 | the context is back in its state after Init |
| Cipher.DecryptContext.Update | Dpdk-lab/multi_thread/l2fwd-multi-thread/main.c:132 | releases what is decrypted so far except a last whole block, which it holds back |
| Cipher.DecryptContext.Final | Dpdk-lab/multi_thread/l2fwd-multi-thread/main.c:133 | releases the held block without its padding, and nothing when the padding is bad or bytes are left over |
| Frames.PayloadRoundTrip | Dpdk-lab/multi_thread/l2fwd-multi-thread/main.c:87-144 | encryption in a buffer stays in bounds if and only if 14 + 16 * (n / 16 + 1) bytes fit it; then decryption stays in bounds as well and restores the payload |
| Frames.FrameRoundTrip | Dpdk-lab/multi_thread/l2fwd-multi-thread/main.c:112-143 | the whole frame comes back, within bounds, if and only if its padded payload fits the buffer and it was IPv4 to begin with, because the type is overwritten |
| Frames.DataRoomHolds | Dpdk-lab/multi_thread/l2fwd-multi-thread/main.c:1182-1184 | in the buffers of the program's pool that is a payload of at most 2031 bytes |
| Frames.FullBufferOverruns | Dpdk-lab/multi_thread/l2fwd-multi-thread/main.c:107-110 | a frame with 2032 bytes of payload fits such a buffer, and once encrypted does not |
| Frames.ArpTypeIsLost | Dpdk-lab/multi_thread/l2fwd-multi-thread/main.c:142-143 | an ARP frame does not come back |
| Frames.Mbuf.WriteBack | Dpdk-lab/multi_thread/l2fwd-multi-thread/main.c:107-110 | the copy is in bounds if and only if the output fits the buffer; the packet then holds exactly the output and both length fields say so; otherwise the whole buffer is overwritten |
| Frames.EncryptAssembles | Dpdk-lab/multi_thread/l2fwd-multi-thread/main.c:102-105 | what Update and Final release together is the one-shot encryption |
| Frames.EncryptPayload | Dpdk-lab/multi_thread/l2fwd-multi-thread/main.c:97-105 | the result is the one-shot encryption whatever packets the context has processed before |
| Frames.RealEncrypt | Dpdk-lab/multi_thread/l2fwd-multi-thread/main.c:87-114 | in bounds if and only if the padded payload fits the mbuf; it then holds the encrypted, marked frame with its port unchanged; the new length is 16 * (n / 16 + 1), which the output buffer always holds |
| Frames.DecryptAssembles | Dpdk-lab/multi_thread/l2fwd-multi-thread/main.c:132-135 | what Update and Final release together is the one-shot decryption, on validly and on badly padded input |
| Frames.DecryptPayload | Dpdk-lab/multi_thread/l2fwd-multi-thread/main.c:127-135 | the result is the one-shot decryption whatever packets the context has processed before |
| Frames.RealDecrypt | Dpdk-lab/multi_thread/l2fwd-multi-thread/main.c:117-144 | always in bounds: the mbuf holds the decrypted, unmarked frame, its port unchanged and its payload no longer than before |
| Traffic.FwdAppend | Dpdk-lab/multi_thread/l2fwd-multi-thread/main.c:402-427 | what a worker returns does not depend on how its input is cut into bursts |
| Traffic.FwdAllMarked | Dpdk-lab/multi_thread/l2fwd-multi-thread/main.c:407-426 | everything a worker returns is marked |
| Pipeline.Touch | Dpdk-lab/multi_thread/l2fwd-multi-thread/main.c:404-426 | the in-place writes of a step leave the step possible |
| PipelineInvariant.InitInv | Dpdk-lab/multi_thread/l2fwd-multi-thread/main.c:376-378 | the pipeline's invariant holds at start |
| PipelineInvariant.StepKeepsInv | Dpdk-lab/multi_thread/l2fwd-multi-thread/main.c:378-445 | every step of a worker, the I/O lcore, a NIC or a wire, in any interleaving and with any prefix accepted, keeps the invariant tying counters and ring contents to what was handed over |
| PipelineInvariant.GuardNeverFails | Dpdk-lab/multi_thread/l2fwd-multi-thread/main.c:602-607 | the capacity test on a send group never fails, because the burst is bounded |
| PipelineInvariant.WireMarked | Dpdk-lab/multi_thread/l2fwd-multi-thread/main.c:617-630 | every frame on a wire that the pipeline sent is marked |
| PipelineLedger.ReachableInv | Dpdk-lab/multi_thread/l2fwd-multi-thread/main.c:378-445 | the invariant holds in every reachable state |
| PipelineLedger.StartReachable | Dpdk-lab/multi_thread/l2fwd-multi-thread/main.c:376-378 | with a destination table for all ports there is a pipeline, whatever the table and the key |
| PipelineLedger.AnythingMayArrive | Dpdk-lab/multi_thread/l2fwd-multi-thread/main.c:548-553 | in every reachable state any frame may arrive on any port, and any frame that has left may come back on any port; it is then last in line there |
| PipelineLedger.ReceiveLedger | Dpdk-lab/multi_thread/l2fwd-multi-thread/main.c:570-588 | at every moment, received frames = refused by receive rings + in them + in hand + decrypted + encrypted |
| PipelineLedger.TransmitLedger | Dpdk-lab/multi_thread/l2fwd-multi-thread/main.c:429-444 | at every moment, encrypted frames = refused by return rings + in them + in hand + sent + freed unsent or misaddressed; marks counted = sent + refused by NICs |
| PipelineLedger.LedgerAtLoopHeads | Dpdk-lab/multi_thread/l2fwd-multi-thread/main.c:593-652 | at loop heads the two ledgers close without batches in hand; the printed mark count never exceeds the total encrypted, and equals it if and only if the return rings are empty and nothing was dropped from them or misaddressed |
| PipelineRefinement.WorkerIsFwd | Dpdk-lab/multi_thread/l2fwd-multi-thread/main.c:378-445 | without drops a drained worker has returned exactly the forwarding of what it was given, in order |
| PipelineRefinement.SentIsMerge | Dpdk-lab/multi_thread/l2fwd-multi-thread/main.c:593-652 | without drops each port has sent an order-preserving merge of the workers' own sequences |
| PipelineRefinement.RefinesSingleThread | Dpdk-lab/multi_thread/l2fwd-single-thread/main.c:478-504 | for every interleaving without drops, once drained, each port has sent as a multiset exactly the frames the run-to-completion loop sends for the same received frames, MAC updating off |
| PipelineRefinement.OneWorkerKeepsOrder | Dpdk-lab/multi_thread/l2fwd-single-thread/main.c:478-504 | with one worker it is the same sequence |
| PipelineLoop.CollectedBag | Dpdk-lab/multi_thread/l2fwd-multi-thread/main.c:407-426 | nothing is collected that was not received and forwarded once |
| PipelineLoop.SentFromInjected | Dpdk-lab/multi_thread/l2fwd-multi-thread/main.c:407-426 | however often the wires copy transmitted frames back, what each port sends is at most the forwarding of the injected frames |
| PipelineLoop.TransmissionsBounded | Dpdk-lab/multi_thread/l2fwd-multi-thread/main.c:617-630 | total transmissions never exceed the number of injected unmarked frames |
| PipelineLoop.SentOrigin | Dpdk-lab/multi_thread/l2fwd-multi-thread/main.c:414-426 | every frame sent on a port is an injected unmarked frame encrypted exactly once, and the table entry of the port it came in on is the port it leaves by |
| PipelineLoop.NoForwardingLoop | Dpdk-lab/multi_thread/l2fwd-multi-thread/main.c:407-426 | the two previous statements, for every port and every run |
| PipelineLoop.NothingMisaddressed | Dpdk-lab/multi_thread/l2fwd-multi-thread/main.c:604-612 | a destination table of port numbers never misaddresses a frame |
| PipelineQuiescence.StepFalls | Dpdk-lab/multi_thread/l2fwd-multi-thread/main.c:378-445 | every step lowers a weight on the frames in flight and the frames still to come |
| PipelineQuiescence.RunsAreFinite | Dpdk-lab/multi_thread/l2fwd-multi-thread/main.c:407-426 | with n injections and at most c copies of each transmitted frame a run has at most n * (10 + 6 * c) steps |
| PipelineQuiescence.RunsAreBounded | Dpdk-lab/multi_thread/l2fwd-multi-thread/main.c:407-426 | the same in terms of the actions taken: while frames that left come back at most c times, a run has at most 10 + 6 * c steps for each injection |
| PipelineQuiescence.StuckOnlyWhenQuiescent | Dpdk-lab/multi_thread/l2fwd-multi-thread/main.c:378-445 | with at least one worker, a pipeline in which nothing can move holds no frame |
| SingleThread.Outgoing | Dpdk-lab/multi_thread/l2fwd-single-thread/main.c:302-337 | the outgoing frame is the encrypted one, marked; with MAC updating on its destination is 02:00:00:00:00:xx for port xx and its source the address of that port, else its addresses stay |
| SingleThread.ForwardedIsFwd | Dpdk-lab/multi_thread/l2fwd-single-thread/main.c:478-504 | with MAC updating off the frames forwarded to a port are those the crypto workers make |
| SingleThread.Forwarder.Flush | Dpdk-lab/multi_thread/l2fwd-single-thread/main.c:401-410 | empties one TX buffer: the NIC takes a prefix, and accepted and refused frames are counted |
| SingleThread.Forwarder.Buffer | Dpdk-lab/multi_thread/l2fwd-single-thread/main.c:337-343 | one frame more in the buffer, or, when that fills it, an empty buffer and everything handed to the NIC |
| SingleThread.Forwarder.Forward | Dpdk-lab/multi_thread/l2fwd-single-thread/main.c:311-344 | the frame joins the TX buffer of the destination, with the addresses above, and the buffer is flushed when full and otherwise left alone; no other port is touched |
| SingleThread.Forwarder.Handle | Dpdk-lab/multi_thread/l2fwd-single-thread/main.c:478-503 | stays in bounds if and only if the frame is marked or its padded payload fits its mbuf; then a marked frame is decrypted, freed once and forwarded nowhere, and any other is encrypted and forwarded |
| SingleThread.Forwarder.HandleBurst | Dpdk-lab/multi_thread/l2fwd-single-thread/main.c:442-504 | stays in bounds if and only if every unmarked frame of the burst has that room; then the books of every port are balanced for everything received so far, and exactly the marked frames' mbufs are free again; no buffer or statistics change but those of the receiving port's reception and of its destination |
| SingleThread.Forwarder.DrainedSends | Dpdk-lab/multi_thread/l2fwd-single-thread/main.c:331-343 | with empty buffers and no refusals each port has sent exactly the forwarded frames, in order, and its counter is their number |
| Ownership.MoveConserves | Dpdk-lab/multi_thread/l2fwd-multi-thread/main.c:402-444 | a hand-off loses and duplicates no buffer: what is no longer held has been freed |
| Ownership.StepKeepsOwned | Dpdk-lab/multi_thread/l2fwd-multi-thread/main.c:402-444 | every step keeps each buffer in exactly one place |
| Ownership.EveryBufferOwnedOnce | Dpdk-lab/multi_thread/l2fwd-multi-thread/main.c:581-588 | in every reachable state, whatever prefixes are accepted, each mbuf is in exactly one of pool, NIC queues, rings and local arrays |
| Ownership.NoUseAfterFree | Dpdk-lab/multi_thread/l2fwd-multi-thread/main.c:435-443 | no run frees a buffer twice, or frees, reads or writes a free one |
| Ownership.TouchedIsAll | Dpdk-lab/multi_thread/l2fwd-multi-thread/main.c:402-444 | no move writes or frees a buffer but those counted as touched by it, nor looks at any other to choose the move or to count marks |
| Ownership.StartsWith | Dpdk-lab/multi_thread/l2fwd-multi-thread/main.c:1182-1184 | runs start with any number of buffers, whatever these hold |
| OwnershipRefinement.WriteMapped | Dpdk-lab/multi_thread/l2fwd-multi-thread/main.c:404-426 | an in-place write through one buffer changes the packet at hand and no other |
| OwnershipRefinement.StepSimulates | Dpdk-lab/multi_thread/l2fwd-multi-thread/main.c:402-444 | a step over shared buffers is a step over packets |
| OwnershipRefinement.RunSimulates | Dpdk-lab/multi_thread/l2fwd-multi-thread/main.c:378-445 | every run over shared, reused buffers is a run of the pipeline over packets, state for state and action for action |
| OwnershipRefinement.SameMoves | Dpdk-lab/multi_thread/l2fwd-multi-thread/main.c:378-445 | over buffers exactly those moves are possible that are possible over packets |
| OwnershipRefinement.FreeBufferIsFilled | Dpdk-lab/multi_thread/l2fwd-multi-thread/main.c:548-553 | while a buffer is free, any frame may arrive in it on any port |
| BufferLoop.StepBooks | Dpdk-lab/multi_thread/l2fwd-multi-thread/main.c:620-630 | the pipeline's transmit counters and injected frames record exactly the buffer actions taken |
| BufferLoop.NoForwardingLoop | Dpdk-lab/multi_thread/l2fwd-multi-thread/main.c:407-426 | in every run over shared buffers the NICs accept at most as many frames as unmarked ones have arrived, and each frame they queue is one of those, encrypted exactly once and on the port its own port is linked to |
| BufferBooks.RunFigures | Dpdk-lab/multi_thread/l2fwd-multi-thread/main.c:570-588 | at every point of a run over shared buffers the pipeline's counters are the totals of the buffer moves made so far |
| BufferBooks.Ledger | Dpdk-lab/multi_thread/l2fwd-multi-thread/main.c:429-444 | both ledgers at loop heads, in numbers of buffers moved, for every run over shared, reused buffers |
| BufferBooks.RunTraffic | Dpdk-lab/multi_thread/l2fwd-multi-thread/main.c:617-630 | what the pipeline has received and sent are the packets the buffers held when they were read and when a NIC took them |
| BufferBooks.RefinesSingleThread | Dpdk-lab/multi_thread/l2fwd-single-thread/main.c:478-504 | in every run over shared buffers that refuses none, once drained, each port's NIC has accepted, as a multiset, the frames the run-to-completion loop sends; with one worker in the same order |
| CryptoLoop.CryptoWorker.Process | Dpdk-lab/multi_thread/l2fwd-multi-thread/main.c:404-425 | stays in bounds if and only if the packet is marked or its padded payload fits its mbuf; then it is decrypted, counted and freed when marked, else encrypted, counted and retargeted |
| CryptoLoop.CryptoWorker.ProcessBurst | Dpdk-lab/multi_thread/l2fwd-multi-thread/main.c:400-427 | stays in bounds if and only if every unmarked packet of the burst has that room; then the returned mbufs hold exactly the forwarding of the burst, in order; counters add up; every other buffer is freed once |
| CryptoLoop.CryptoWorker.Return | Dpdk-lab/multi_thread/l2fwd-multi-thread/main.c:430-444 | the ring takes a prefix; the rest is counted and freed once |
| CryptoLoop.CryptoWorker.Serve | Dpdk-lab/multi_thread/l2fwd-multi-thread/main.c:400-444 | in bounds on the same condition; then one burst is processed and returned: counters, return ring and pool account for all of it |
| CryptoLoop.CryptoWorker.Iterate | Dpdk-lab/multi_thread/l2fwd-multi-thread/main.c:378-445 | one iteration, in bounds on the same condition for the burst it takes: the burst leaves the receive ring, the part of its forwarding for which there is room joins the return ring, the packets already in the rings are unchanged, and every buffer is in a ring or free, once |
| LoopMoves.ProcessAll | Dpdk-lab/multi_thread/l2fwd-multi-thread/main.c:402-427 | working off a burst packet by packet is a sequence of that worker's moves in the pipeline |
| LoopMoves.IterationIsMoves | Dpdk-lab/multi_thread/l2fwd-multi-thread/main.c:378-445 | so is a whole iteration, with exactly its effect on rings and counters |
| LoopMoves.StartWorker | Dpdk-lab/multi_thread/l2fwd-multi-thread/main.c:366-378 | a worker starts at the start of the pipeline |
| LoopMoves.OthersLeaveHand | Dpdk-lab/multi_thread/l2fwd-multi-thread/main.c:402-427 | whatever the other lcores do meanwhile, a worker's packets in hand and counters stay as they are |
| LoopMoves.OthersLeaveRings | Dpdk-lab/multi_thread/l2fwd-multi-thread/main.c:381-382 | the others only add to the end of a worker's receive ring and take from the front of its return ring |
| LoopMoves.RunDequeue | Dpdk-lab/multi_thread/l2fwd-multi-thread/main.c:381-382 | taking a burst on mbufs is at most one move of that worker, from any state whose receive ring the ring holds |
| LoopMoves.RunProcess | Dpdk-lab/multi_thread/l2fwd-multi-thread/main.c:402-427 | one packet on mbufs is moves of that worker, from any state with that packet next, whatever the rings hold by then; in bounds if and only if it is marked or has room |
| LoopMoves.RunEnqueue | Dpdk-lab/multi_thread/l2fwd-multi-thread/main.c:430-444 | returning the batch and freeing the rest is moves of that worker, from any state whose return ring the ring holds by then |
| LoopMoves.RunWorker | Dpdk-lab/multi_thread/l2fwd-multi-thread/main.c:378-445 | run without interruption, the loop on mbufs takes rings holding the packets of a pipeline state to rings holding those of a state reached by moves of that worker alone, in bounds if and only if the burst has room |
| LoopMoves.LeadsReachable | Dpdk-lab/multi_thread/l2fwd-multi-thread/main.c:378-445 | whatever is reached by such moves is a reachable state of the pipeline, so all results on reachable states apply |
| IoLoop.IoLcore.SetPorts | Dpdk-lab/multi_thread/l2fwd-multi-thread/main.c:575-578 | every mbuf of the burst records the receiving port and is otherwise unchanged |
| IoLoop.IoLcore.Accept | Dpdk-lab/multi_thread/l2fwd-multi-thread/main.c:570-578 | a received burst is counted and shows the receiving port |
| IoLoop.IoLcore.Dispatch | Dpdk-lab/multi_thread/l2fwd-multi-thread/main.c:581-588 | the ring takes a prefix; the rest is counted and freed once |
| IoLoop.IoLcore.Receive | Dpdk-lab/multi_thread/l2fwd-multi-thread/main.c:548-589 | a received burst joins a worker's ring behind what it holds, with its port recorded; counters and pool account for every buffer |
| IoLoop.IoLcore.Collect | Dpdk-lab/multi_thread/l2fwd-multi-thread/main.c:593 | a burst leaves the front of the return ring, and the rest of the ring is unchanged |
| IoLoop.GroupShows | Dpdk-lab/multi_thread/l2fwd-multi-thread/main.c:601-612 | each port's batch is the in-order sub-sequence with that destination |
| IoLoop.GroupsPartition | Dpdk-lab/multi_thread/l2fwd-multi-thread/main.c:601-612 | the batches and the misaddressed frames make up the burst |
| IoLoop.IoLcore.Group | Dpdk-lab/multi_thread/l2fwd-multi-thread/main.c:601-612 | grouping yields exactly those batches and frees exactly the misaddressed frames: the capacity guard never fails |
| IoLoop.IoLcore.SendPort | Dpdk-lab/multi_thread/l2fwd-multi-thread/main.c:615-651 | the NIC takes a prefix of the batch, marks and sent frames are counted, the rest is freed once |
| IoLoop.IoLcore.SendGroups | Dpdk-lab/multi_thread/l2fwd-multi-thread/main.c:614-653 | the same for all ports in turn, no port affecting another |
| IoLoop.IoLcore.SendReturned | Dpdk-lab/multi_thread/l2fwd-multi-thread/main.c:593-653 | one returned burst: each NIC queue grows by a prefix of the in-order sub-sequence addressed to it, and every buffer ends with a NIC or free, once |
| IoMoves.OneActor | Dpdk-lab/multi_thread/l2fwd-multi-thread/main.c:378-653 | every hand-off is made by the I/O lcore, by exactly one worker or by a NIC |
| IoMoves.StartIo | Dpdk-lab/multi_thread/l2fwd-multi-thread/main.c:545-553 | the I/O lcore starts at the start of the pipeline |
| IoMoves.ReceptionIsMoves | Dpdk-lab/multi_thread/l2fwd-multi-thread/main.c:548-589 | receiving and dispatching a burst is a sequence of moves of the I/O lcore in the pipeline |
| IoMoves.RunReceive | Dpdk-lab/multi_thread/l2fwd-multi-thread/main.c:548-589 | run without interruption, the receive half on mbufs takes counters and ring of a pipeline state to those of a state reached by such moves |
| IoMoves.GroupAll | Dpdk-lab/multi_thread/l2fwd-multi-thread/main.c:601-612 | grouping a burst packet by packet adds to each send group the sub-sequence for its port |
| IoMoves.ReturnIsMoves | Dpdk-lab/multi_thread/l2fwd-multi-thread/main.c:593-653 | collecting, grouping, sending and freeing a returned burst is a sequence of moves of the I/O lcore |
| IoMoves.OthersLeaveIo | Dpdk-lab/multi_thread/l2fwd-multi-thread/main.c:548-653 | whatever the workers, NICs and wires do meanwhile, the I/O lcore's bursts, groups and counters stay as they are |
| IoMoves.OthersLeaveQueues | Dpdk-lab/multi_thread/l2fwd-multi-thread/main.c:548-653 | the others only add to the end of NIC receive queues and return rings and take from the front of NIC transmit queues and receive rings |
| IoMoves.RunAccept | Dpdk-lab/multi_thread/l2fwd-multi-thread/main.c:551-578 | receiving a burst on mbufs and recording its port is one move of the I/O lcore |
| IoMoves.RunDispatch | Dpdk-lab/multi_thread/l2fwd-multi-thread/main.c:581-588 | dispatching it and freeing the rest is moves of the I/O lcore, whatever the worker's ring holds by then |
| IoMoves.RunCollect | Dpdk-lab/multi_thread/l2fwd-multi-thread/main.c:593 | taking a burst from a return ring is one move of the I/O lcore |
| IoMoves.RunGroup | Dpdk-lab/multi_thread/l2fwd-multi-thread/main.c:601-612 | grouping it on mbufs is moves of the I/O lcore, and each group shows the in-order sub-sequence for its port |
| IoMoves.RunSend | Dpdk-lab/multi_thread/l2fwd-multi-thread/main.c:617-652 | offering one group to its NIC and freeing the rest is moves of the I/O lcore, whatever that NIC has sent by then |
| IoMoves.RunReturn | Dpdk-lab/multi_thread/l2fwd-multi-thread/main.c:593-653 | run without interruption from the dequeue on, the transmit half on mbufs takes return ring, counters and NIC queues of a pipeline state to those of a state reached by such moves |
| Ports.CheckPortPairConfig | Dpdk-lab/multi_thread/l2fwd-multi-thread/main.c:909-950 | accepts a list if and only if all its ports are enabled and present and no two pairs share one; the mask is then exactly the union of the pairs |
| Ports.TableFromPairs | Dpdk-lab/multi_thread/l2fwd-multi-thread/main.c:1102-1108 | each pair is linked both ways and every other entry is zero |
| Ports.PairsInvolution | Dpdk-lab/multi_thread/l2fwd-multi-thread/main.c:1098-1109 | such a table is an involution on the paired ports |
| Ports.SelectAscending | Dpdk-lab/multi_thread/l2fwd-multi-thread/main.c:1112-1116 | the loop visits exactly the enabled present ports, in ascending order |
| Ports.DefaultTable | Dpdk-lab/multi_thread/l2fwd-multi-thread/main.c:1112-1134 | consecutive enabled ports are linked, the odd last one to itself |
| Ports.DefaultInvolution | Dpdk-lab/multi_thread/l2fwd-multi-thread/main.c:1112-1134 | that table is an involution, and only an odd last port maps to itself |
| Ports.SetUpPorts | Dpdk-lab/multi_thread/l2fwd-multi-thread/main.c:1075-1135 | port set-up succeeds if and only if there is a port, the pairs are acceptable and the mask is possible; the table is then an involution on the enabled ports: the pairs given are linked both ways, and without a list consecutive ports are |
| Lcores.SlotsAreMultiples | Dpdk-lab/multi_thread/l2fwd-multi-thread/main.c:1152-1154 | the first k lcores have room for q times as many ports as are enabled among them |
| Lcores.FindPlace | Dpdk-lab/multi_thread/l2fwd-multi-thread/main.c:1152-1159 | the inner loop ends at the next enabled lcore with room, or past the last one when all are full |
| Lcores.AssignPorts | Dpdk-lab/multi_thread/l2fwd-multi-thread/main.c:1138-1173 | first fit fails if and only if there are more ports than q times the enabled lcores; each lcore gets exactly the consecutive ports of its own places; `nb_lcores` is the number of lcores used, and the fewest possible |
| Lcores.PortOnOneLcore | Dpdk-lab/multi_thread/l2fwd-multi-thread/main.c:1138-1173 | every port lands on exactly one lcore |
| Lcores.LcoreOf | Dpdk-lab/multi_thread/l2fwd-multi-thread/main.c:1152-1159 | that lcore is enabled |
| Lcores.ShareIsBounded | Dpdk-lab/multi_thread/l2fwd-multi-thread/main.c:1169-1170 | no lcore gets more than q ports, and a disabled one none |
| Lcores.PickCrypto | Dpdk-lab/multi_thread/l2fwd-multi-thread/main.c:1352-1364 | the crypto lcores are the enabled ones above main without ports, ascending |
| Lcores.LaunchIo | Dpdk-lab/multi_thread/l2fwd-multi-thread/main.c:1396-1427 | the I/O lcores are the enabled ones above main with ports, ascending |
| Lcores.LaunchAll | Dpdk-lab/multi_thread/l2fwd-multi-thread/main.c:1352-1446 | the launches made: numbered crypto workers, then I/O, then main if it has ports |
| Lcores.StartedOnce | Dpdk-lab/multi_thread/l2fwd-multi-thread/main.c:1352-1446 | enabled lcores above main are started once, main once if it has ports, all others never |
| Lcores.RolesFit | Dpdk-lab/multi_thread/l2fwd-multi-thread/main.c:1376-1394 | I/O exactly where there are ports; worker numbers count up from zero, so no two share a ring pair |
| Lcores.WorkersHaveRingsIff | Dpdk-lab/multi_thread/l2fwd-multi-thread/main.c:1356-1392 | with main lowest, a port assigned and the fewest lcores used, no worker indexes past the eight ring pairs if and only if at most eight lcores are enabled or there are more ports than q times the enabled lcores less nine |
| Lcores.NineWorkersOverrun | Dpdk-lab/multi_thread/l2fwd-multi-thread/main.c:1379-1382 | lcores 0 to 9 with main 0, one port and one port per lcore start worker number 8 on lcore 9 |
| Lcores.WorkersAreTheRest | Dpdk-lab/multi_thread/l2fwd-multi-thread/main.c:1356-1366 | with main lowest and a port assigned, the number of workers is the enabled lcores minus those with ports |
| Lcores.PartitionIffMainIsLowest | Dpdk-lab/multi_thread/l2fwd-multi-thread/main.c:1352-1446 | with a port assigned, every enabled lcore is started exactly once if and only if main is the lowest enabled lcore; main then does I/O |
| Lcores.LowerLcoreIsNotStarted | Dpdk-lab/multi_thread/l2fwd-multi-thread/main.c:1352-1446 | with lcores 0 and 1 and main 1, lcore 0 is given a port and never started |
| RaceFree.SetUpAll | Dpdk-lab/multi_thread/l2fwd-single-thread/main.c:944-1025 | set-up as a whole succeeds exactly on the inputs its checks allow, and leaves a valid plan whose table links the pairs given, or consecutive ports |
| RaceFree.OneWriter | Dpdk-lab/multi_thread/l2fwd-single-thread/main.c:331-343 | every RX queue, TX queue, TX buffer and counter is written by exactly one lcore over all main loops |
| RaceFree.OneUser | Dpdk-lab/multi_thread/l2fwd-single-thread/main.c:401-410 | queues and TX buffers are not used by any other lcore at all |
| RaceFree.CounterUsers | Dpdk-lab/multi_thread/l2fwd-single-thread/main.c:420-470 | who uses a counter: its writer; for a transmit counter also the lcore polling that port, whose throughput test reads it; the main lcore when statistics are printed |
| RaceFree.CountersPrivateIff | Dpdk-lab/multi_thread/l2fwd-single-thread/main.c:420-470 | no counter is used by two lcores if and only if both ports of every pair are polled by one lcore and, with the statistics timer on, main polls all ports or none |
| RaceFree.PollerIff | Dpdk-lab/multi_thread/l2fwd-single-thread/main.c:990-1025 | two ports are polled by one lcore if and only if they fall into the same group of q consecutive enabled ports |
| RaceFree.PairsTogetherIff | Dpdk-lab/multi_thread/l2fwd-single-thread/main.c:990-1025 | so, for any pairing, the first condition holds if and only if paired ports fall into the same such group |
| RaceFree.DefaultPairsTogetherIff | Dpdk-lab/multi_thread/l2fwd-single-thread/main.c:944-987 | under the default pairing the first condition holds if and only if the ports per lcore are even in number or one lcore takes all ports; one per lcore, the default, fails it |
| RaceFree.TwoPortsShareACounter | Dpdk-lab/multi_thread/l2fwd-single-thread/main.c:460-470 | two ports on two lcores, one port each, share a counter |
| RaceFree.TimesSharedIff | Dpdk-lab/multi_thread/l2fwd-single-thread/main.c:446-476 | the flags and times of the throughput test are used by two lcores, without locks, if and only if there are more ports than one lcore takes |
| RaceFree.TwoPortsShareTheTimes | Dpdk-lab/multi_thread/l2fwd-single-thread/main.c:446-476 | the default set-up with two ports is such a case |
| SimpleMp.StepKeepsOwned | Dpdk-lab/multi_process/simple_mp/mp_commands.c:15-25 | every step of a sender or receiver keeps each message buffer in exactly one place |
| SimpleMp.OnlySenderHas | Dpdk-lab/multi_process/simple_mp/mp_commands.c:15-18 | the buffer a sender writes is in no ring and in no receiver's hand |
| SimpleMp.StepKeepsSized | Dpdk-lab/multi_process/simple_mp/main.c:62-73 | free buffers, ring contents and buffers in hand always add up to 1024 |
| SimpleMp.StepKeepsLinked | Dpdk-lab/multi_process/simple_mp/main.c:62-73 | every step keeps the texts, the once-only printing and, for a lone receiver, the order |
| SimpleMp.StepKeepsInv | Dpdk-lab/multi_process/simple_mp/main.c:62-73 | every step keeps the whole invariant |
| SimpleMp.PanicUnreachable | Dpdk-lab/multi_process/simple_mp/mp_commands.c:15-16 | the pool is not empty at the prompt while two full rings, all receivers and the other prompt leave a buffer over |
| SimpleMp.EveryBufferOwnedOnce | Dpdk-lab/multi_process/simple_mp/main.c:80-107 | in every run each buffer is in exactly one of the pool, a ring, a sender's hand or a receiver's hand |
| SimpleMp.NeverPanics | Dpdk-lab/multi_process/simple_mp/mp_commands.c:15-16 | with few enough receivers no run reaches "Failed to get message buffer" |
| SimpleMp.NeverPanicsAtAll | Dpdk-lab/multi_process/simple_mp/mp_commands.c:15-16 | with at most 127 receiving lcores in each process no run reaches it |
| SimpleMp.ExactFifo | Dpdk-lab/multi_process/simple_mp/main.c:62-73 | in every run the messages dequeued are a prefix of those enqueued at the other end, the rest waits in order, and each dequeued one is printed once or about to be, with the text copied when it was sent |
| SimpleMpProgress.Receives | Dpdk-lab/multi_process/simple_mp/main.c:62-73 | while its process has not quit, a receiver at the head of its loop takes the oldest waiting message, prints the text that was sent and returns the buffer, by its own steps alone |
| SimpleMpProgress.Delivers | Dpdk-lab/multi_process/simple_mp/main.c:62-73 | and so all waiting messages, in the order sent |
| SimpleMpProgress.EverythingArrives | Dpdk-lab/multi_process/simple_mp/main.c:62-73 | from any state of any run, any one receiver of a process that has not quit can empty the ring to it |
| SimpleMpProgress.FindsNothing | Dpdk-lab/multi_process/simple_mp/main.c:65-68 | with an empty ring a receiver is back at the head of its loop, and nothing has changed |
| SimpleMpProgress.StopsOnlyAfterQuit | Dpdk-lab/multi_process/simple_mp/main.c:62 | in every run a receiver has stopped only if its process has quit |
| SimpleMpProgress.StopsAfterQuit | Dpdk-lab/multi_process/simple_mp/main.c:62 | after that it stops at its next test |
| SimpleMpProgress.Sends | Dpdk-lab/multi_process/simple_mp/mp_commands.c:15-25 | with a free buffer and room in the ring a text is copied and enqueued: ring and messages sent grow by one |
| SimpleMpProgress.Discards | Dpdk-lab/multi_process/simple_mp/mp_commands.c:19-25 | with a full ring nothing is sent and the buffer is free again |
| SimpleMpProgress.SentIsPrinted | Dpdk-lab/multi_process/simple_mp/mp_commands.c:15-25 | a text sent can be printed at the other end, behind all that was sent before |
| SimpleMpProgress.EmptyPoolPanics | Dpdk-lab/multi_process/simple_mp/mp_commands.c:15-16 | at an empty pool the prompt can only panic, and then everything stands still |
| SimpleMpProgress.StartsWith | Dpdk-lab/multi_process/simple_mp/main.c:80-107 | there are runs for any numbers of receiving lcores |
| SimpleMp.OneReceiverPrintsInOrder | Dpdk-lab/multi_process/simple_mp/main.c:62-73 | a process with one receiving lcore prints exactly the texts sent, in order |
| SimpleMp.NothingSentAfterQuit | Dpdk-lab/multi_process/simple_mp/mp_commands.c:28-35 | once a process has quit it never sends again, and it held no message when it did |
| SimpleMp.Truncated | Dpdk-lab/multi_process/simple_mp/mp_commands.c:17 | the text copied is the text itself or its first 127 characters |
| RequestScanner.ExtractPath | pwnColledge/computing101/serverAssembly/post_server.s:77-106 | the verb's length and a zero-terminated copy of the path; the rest of the path buffer is unchanged; both loops end within the request |
| RequestScanner.SkipLine | pwnColledge/computing101/serverAssembly/post_server.s:121-127 | the header loop stops at the end of the line |
| RequestScanner.NextLine | pwnColledge/computing101/serverAssembly/post_server.s:121-138 | one round passes exactly one line, and a carriage return follows exactly when it was the last |
| RequestScanner.FindBody | pwnColledge/computing101/serverAssembly/post_server.s:117-144 | the offset found is behind the first empty line, whatever the body contains |
| RequestScanner.Scan | pwnColledge/computing101/serverAssembly/post_server.s:77-148 | scanning undoes rendering: path, body offset and body length are those of the request rendered; it is served as GET exactly when the verb has three letters |
| RequestScanner.PutIsServed | pwnColledge/computing101/serverAssembly/post_server.s:109-111 | a PUT request is served as a GET, whatever its body |
| RequestScanner.RenderInjective | pwnColledge/computing101/serverAssembly/post_server.s:77-148 | no two well-formed requests have the same text |
| PortMap.NumberOfDecimal | Dpdk-lab/multi_thread/l2fwd-multi-thread/main.c:737-741 | a printed number is read back, and refused from 2^64 on |
| PortMap.NumberSigned | Dpdk-lab/multi_thread/l2fwd-multi-thread/main.c:737-741 | leading blanks, tabs and line ends and a sign are accepted, and a negative number is read modulo 2^64 |
| PortMap.NumberHex | Dpdk-lab/multi_thread/l2fwd-multi-thread/main.c:737-741 | "0x" or "0X" introduces hexadecimal digits, and a number printed in them is read back |
| PortMap.NumberOctal | Dpdk-lab/multi_thread/l2fwd-multi-thread/main.c:737-741 | "0" introduces octal digits |
| PortMap.NumberStops | Dpdk-lab/multi_thread/l2fwd-multi-thread/main.c:737-741 | what follows the digits is ignored |
| PortMap.NoNumber | Dpdk-lab/multi_thread/l2fwd-multi-thread/main.c:737-741 | text without a digit behind spaces and sign is refused |
| PortMap.GroupOfPrinted | Dpdk-lab/multi_thread/l2fwd-multi-thread/main.c:730-742 | a printed pair is read back if its ports are in range, and refused otherwise |
| PortMap.GroupNeedsComma | Dpdk-lab/multi_thread/l2fwd-multi-thread/main.c:730-736 | a group without a comma, or with nothing behind it, is refused |
| PortMap.ParsePortPairConfig | Dpdk-lab/multi_thread/l2fwd-multi-thread/main.c:700-757 | the loop ends on any text; success yields at most 16 pairs of ports in range, and exactly the groups of the text |
| PortMap.GroupsOfPrinted | Dpdk-lab/multi_thread/l2fwd-multi-thread/main.c:719-754 | any list of pairs printed with separators free of "(" is read back group by group |
| PortMap.RoundTrip | Dpdk-lab/multi_thread/l2fwd-multi-thread/main.c:700-757 | parsing a printed list gives it back if all ports are in range and it has at most 16 pairs, and fails otherwise |
| HugePages.UnitIndex | Dpdk-lab/multi_thread/dpdk-hugepages.py:94-96 | the unit chosen is the largest not above the size |
| HugePages.ParseFormat | Dpdk-lab/multi_thread/dpdk-hugepages.py:92-113 | a size is shown if and only if it is positive and below 2^30 kB; parsing what is shown gives the largest multiple of the unit not above it |
| HugePages.ParseSpellings | Dpdk-lab/multi_thread/dpdk-hugepages.py:100-113 | a unit letter of either case, with or without a final b of either case, means its unit; without a letter the number counts bytes |
| HugePages.ParseUnits | Dpdk-lab/multi_thread/dpdk-hugepages.py:109-113 | K, M and G, in either case, multiply by 1, 1024 and 1024 * 1024 |
| HugePages.ParseIff | Dpdk-lab/multi_thread/dpdk-hugepages.py:100-108 | a text is a size if and only if it is digits, perhaps a unit letter, a line end and a final b |
| HugePages.ShownTexts | Dpdk-lab/multi_thread/dpdk-hugepages.py:92-97 | n kB, n MB and n GB are shown as "nKb", "nMb" and "nGb" for n below 1024 |
| HugePages.FormatParseFormat | Dpdk-lab/multi_thread/dpdk-hugepages.py:92-113 | showing, parsing and showing again changes nothing |
| HugePages.WantedIsExact | Dpdk-lab/multi_thread/dpdk-hugepages.py:254-266 | the pages asked for make up exactly the requested size |
| HugePages.ReserveOnAll | Dpdk-lab/multi_thread/dpdk-hugepages.py:265-275 | every node is asked in turn up to the first that fails, and the error says which and why |
| HugePages.TryReserveHugePages | Dpdk-lab/multi_thread/dpdk-hugepages.py:250-275 | success if and only if the size is a whole number of pages and every node grants them; every node then holds exactly the requested size; after a failure nodes before it keep theirs and nodes after it are untouched |
| Latency.AddTimestamps | Dpdk-lab/rxtx_callbacks/main.c:73-80 | every packet of the burst carries the counter value |
| Latency.WrapDifference | Dpdk-lab/rxtx_callbacks/main.c:97 | the wrapped subtraction yields the wrapped true latency |
| Latency.BurstCycles | Dpdk-lab/rxtx_callbacks/main.c:86-101 | a burst's cycles are the sum of its true latencies, wrapped |
| Latency.Numbers.CalcLatency | Dpdk-lab/rxtx_callbacks/main.c:83-125 | the totals are those of the open window; a window over 100 packets is closed and shows one figure, the mean rounded down if and only if its true latencies sum to less than 2^64 |
| Latency.WindowsPartition | Dpdk-lab/rxtx_callbacks/main.c:103-122 | after each call the open window holds at most 100 packets, every closed one more, and every packet is averaged in exactly one window, in order |
| Latency.ShownIsMeanIff | Dpdk-lab/rxtx_callbacks/main.c:111-113 | the figure f shown for n packets satisfies f * n <= sum < (f + 1) * n if and only if the true latencies of the window sum to less than 2^64 |
| Latency.MeanIs | Dpdk-lab/rxtx_callbacks/main.c:112-113 | there is one such figure, the sum divided by n |
| Latency.EveryFigureIsMean | Dpdk-lab/rxtx_callbacks/main.c:73-125 | in a run of bursts of at most b packets with latencies below 2^64 / (100 + b), every figure shown is the mean rounded down |

## Left out

- Cipher.EncryptContext.Reset: restores the state after Init, as the comment beside the call says is meant; the library call used also forgets the key.
- Cipher.DecryptContext.Reset: likewise.
- Frames.RealEncrypt: when the copy runs past the buffer nothing is promised, and the bytes beyond the buffer are not modelled. For a frame shorter than its header, whose payload length the code computes as negative, the library call is taken to process nothing.
- CryptoLoop.CryptoWorker.Iterate: after an overrun nothing is promised, as C leaves the behaviour undefined.
- SingleThread.Forwarder.HandleBurst: likewise.
- IoLoop.IoLcore.Dispatch: the worker is a parameter, which covers any distribution; the source names the whole ring array at lines 581, 585 and 593, unfinished work whose intent the notes beside it state.
- IoLoop.IoLcore.SendReturned: the worker whose return ring is emptied is likewise arbitrary.
- PipelineInvariant.StepKeepsInv: one I/O lcore, as in the documented set-up; two would share the receive rings.
- PipelineLedger.LedgerAtLoopHeads: counters are unbounded, so the wrap of 64-bit counters is not modelled. Frames the NICs refuse and misaddressed frames, which the program frees uncounted, are counted in the history.
- PipelineRefinement.RefinesSingleThread: with MAC updating off, since the pipeline never updates addresses; the periodic flush of TX buffers adds nothing in the pipeline, where nothing fills them.
- SingleThread.Forwarder.Forward: the TX buffers hold the frames rather than the mbufs, so the buffers' return to the pool is not part of this class.
- Lcores.LaunchAll: the workers are numbered without end, as the source does; what indexing past the eight ring pairs does is not modelled.
- Ports.SetUpPorts: a mask is a set of port numbers, and with 32 ports the shift in the mask test is undefined in C. That set-up later stops when no enabled port is present is not modelled.
- SimpleMp.NeverPanics: the pool is one bag, without the per-lcore caches that can hide free buffers; that more receivers than any process can have could exhaust it is not stated.
- SimpleMp.NeverPanicsAtAll: likewise without those caches.
- SimpleMpProgress.EverythingArrives: what a receiver's own steps reach; that the scheduler lets it run is not modelled.
- RequestScanner.Scan: for well-formed requests read in one piece; the source does not check its bounds on others. Socket, process and file calls are left out.
- HugePages.UnitIndex: the logarithm is exact; in the range shown the floating-point one agrees.
- HugePages.TryReserveHugePages: what the kernel grants is a parameter; numbers above 2^53 and digits outside ASCII are read exactly and not at all, where the source goes through floating point and Unicode. Error texts are left out.
- PortMap.ParsePortPairConfig: `strtoul` and `rte_strsplit` are modelled by what they are documented to do.
- Rings, the mbuf pool and NIC queues: contracts only (bounded FIFO that takes a prefix, bag of buffers, queue that takes a prefix).
- Device bring-up, link polling, signals, option parsing apart from the pair list, printing, timers and throughput reports: input and output without a hard property.
- The hardware-timestamp half of the latency callbacks: calibrated in floating point against a device clock.
- basic_fwd, flow_filtering, the Netfilter hook, the packet senders, server.s and the textbook assembly loops: fixed tables and thin wrappers around library calls, without state or arithmetic of their own.
