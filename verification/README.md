# RVBucket architecture model: verified core

This project models the stateful core of RVBucket's C architecture model in Dafny and proves
what its components do over whole runs.

- **L2 cache** (`Words`, `L2Types`, `L2Coherence`, `L2Traffic`, `L2Ports`, `L2Steps`, `L2Service`,
  `L2Invariant`, `L2Stale`, `L2Cache`). The two-port write-back cache with its shared miss engine,
  its bypass traffic and its cache-block operations is a class; memory behind it is an environment
  that stores and returns beats at any time. The main theorem is refinement: in every run the
  accesses served form a legal history of one flat memory, each port is handed exactly the answers
  to its own requests, in the order of asking, with the data the history gives them, and a write is
  answered only after all its stores; an invalidate reverts a line only to words it held before; and
  while a clean or flush is being served there is a moment at which memory holds of its line exactly
  what the requesters see.
  `L2Steps` says what each step does to the whole state, `L2Invariant` that it keeps the
  invariant, and the class that the code takes these steps. The theorem rests on what the code
  relies on: bypass and cached requests use disjoint lines (`cacheable`), memory answers in order
  with OKAY and `len + 1` beats, other masters write only lines outside `cacheable`, and a
  cache-block request carries one of the three operations of `design/model/spec/core/cache.h:43-45`.
  Runs are followed up to the first clock that takes the answer to a
  cache-block write-back whose slot has changed since its words were sent (`Late`); with a
  read-only instruction port there is none.
- **SD-SPI controller and card** (`SdspiTypes`, `SdspiInvariant`, `SdspiSteps`, `SdspiLink`,
  `SdspiMachine`, `SdspiKeeps`, `SdspiStale`, `Sdspi`). Controller, DMA engine, both packet links, card, image, AXI
  traffic and memory form one system class with a schedule that clocks them in any order. The main
  theorem: no run ever takes a protocol-error, bad-packet or DMA-error branch; every data command
  that completes is logged as it is at that moment, the buffer at DMA_ADDR and the stretch of the
  image, which for a block command are equal word by word from the sector of its argument on, over
  block size times block count, and moved by bursts that tile them exactly once; and the card is a
  disk: the image is the logged writes applied in order, with the write under way between its store
  and its acknowledgement, and every logged block read has read that disk. `SdspiMachine` says what each step makes of the whole state, `SdspiKeeps` that
  it keeps the invariant and what it means, and the class that the code takes these steps. Runs are
  followed up to the first refusal by the card that cuts off a DMA burst in flight (`CutOff`);
  `SdspiStale` shows what can come after it. Software leaves DMA_ADDR and the buffer alone while
  the controller is busy.
- **Thread handshake and snapshot** (`SmpHandshake`, `SmpSnapshot`). Both are state machines
  whose steps are the single atomic operations of the two threads, interleaved freely under
  sequential consistency.
- **Ordering structures** (`Ring` with `DivMod`, `Ring` and `Fifo`, `OstQueue`, `OstKeyed`), the
  latency path of the **AXI RAM** (`Ram`) and the **PLIC** (`Plic`), each a class over the arrays
  and pointers of the source, proved against a queue, a list in allocation order, bursts applied
  in order, and a claim history.
- **Boot image** (`BootFormat`, `BootLoader`, `BootRoundTrip`). The packer and the loader, with
  the 32-bit arithmetic written out: sums that must not wrap go through `Sum`, whose
  precondition says so.

`Valid()` ties a class to its specification state. That state (`flat` and `history`, `log`, `past`, ...)
is a ghost field, and a method that does not list it under `modifies` leaves it alone. Large
predicates have bodies of the form `var ok := ...; ok`, and methods `hide` the predicates they do
not touch; both only keep the proofs small.

## Findings

Where a promise does not hold as one would state it, the code is modelled as it is, with a
witness and the exact condition.

- The end of a cache-block write-back clears the dirty bit whatever has happened to the line. That
  keeps the flat memory exactly when every word of the slot is still the word that was sent
  (`L2Coherence.ClearIff`, and for the whole invariant `L2Invariant.CmoBOk`), which can be tested
  before the clock (`Late`). Otherwise a stored word is lost (`L2Stale.LateIsLost`), and there is a
  run from reset in which a port stores `x` and then `y`, has both stores answered, and reads `x`
  (`L2Stale.StaleLoad`).
- When the card refuses a write while a prefetch burst is in flight, the controller forgets the burst
  but not its beats. That breaks the invariant exactly in this case (`SdspiKeeps.CutOffIff`), which
  can be tested before the clock (`CutOff`). The next write takes the beats left on the bus for its
  own: there is a run from reset in which a one-word write is reported as done, without any error,
  and the card holds a word of the buffer of the refused command (`SdspiStale.StaleWrite`).
- A submission is lost before destroy exactly when the worker first reads `run_epoch` after it
  (`SmpHandshake.LostIffLate`, `WorkerCanBeLate`).
- With a worker that started in time, destroy drops the last task exactly when, at the moment it
  sets `stop`, the task has not been started and the worker is not past its test of `stop`
  (`SmpHandshake.DroppedIff`, `DestroyCanDrop`); it makes the worker run the task once more exactly when everything has run and
  the worker is between its loads of `stop` and `run_epoch` (`AddedIff`, `DestroyCanAdd`). A
  destroy that follows a returned drain drops nothing (`DestroyAfterDrain`).
- A drain sleeps through a published completion exactly when the value it re-reads before
  sleeping is already its target (`SmpHandshake.OversleptIff`); then only a signal wakes it
  (`OversleptForever`), and it does happen (`DrainCanOversleep`).
- A snapshot read returns a whole packet if fewer than 2^31 packets are published meanwhile
  (`SmpSnapshot.ReadsAreWhole`), and at 2^31 it can return a mixture (`ReadCanTear`).
- The header check never compares sections with each other: among packed images with one accepted
  header, a section is in place after every load exactly when no later one is loaded over it
  (`BootRoundTrip.IntactIff`). A kernel linked to the firmware's address is accepted
  (`OverlapAccepted`), the loader reports success, and the kernel's byte stands in the firmware's
  place (`LoadOverlap`).
- A write to an enable word of the PLIC masks out the first bit of every word, not only that of
  source 0. A source can be enabled exactly when its number is not a multiple of 32
  (`Plic.EnableIff`), so with 33 sources source 32 is never handed out in any run from reset
  (`NeverHandedOut`); `LastInputLost` is a run in which its input is high, its priority 7 and its
  enable word all ones, and the claim returns 0.

## Model

| member | source | states |
|---|---|---|
| Words.MergeBytes | design/model/core/l2.c:97-107 | the strobe loop changes exactly the strobed bytes of a word |
| L2Types.IncrBeatAddr | design/model/core/l2.c:85-89 | repeated next-address steps of an incrementing burst equal start plus beat times 2^size modulo 2^32 |
| FlatMemory.LegalAppend | design/model/core/l2.c:663-745 | a history of one memory stays legal when a load returns the replayed word, and under any store, answer or response |
| FlatMemory.ReplayIsLastWriter | design/model/core/l2.c:97-107 | replaying a history gives, byte by byte, the last store or discard to that byte |
| L2Coherence.HeldIff | design/model/core/l2.c:37-69 | a slot holds a line exactly when its set is the line's set and its tag the line's tag |
| L2Coherence.StartMiss | design/model/core/l2.c:121-152 | claiming a victim, dirty or clean, keeps every line of the flat memory recoverable |
| L2Coherence.SendW | design/model/core/l2.c:195-211 | the beats of a write-back are the words of the slot at the moment they are sent, in order |
| L2Coherence.MemStoresLine | design/model/core/l2.c:177-224 | memory storing write-back beats never changes what the requesters see |
| L2Coherence.EvictionDone | design/model/core/l2.c:213-224 | after the write response memory holds the evicted line |
| L2Coherence.RefillDone | design/model/core/l2.c:245-269 | installing a refilled line keeps at most one valid slot per line, and the slot equals memory |
| L2Coherence.StoreHit | design/model/core/l2.c:700-745 | a store to a slot keeps coherence and the engine's work, whatever the engine is doing |
| L2Coherence.LoadHit | design/model/core/l2.c:663-698 | the word in the valid slot is the flat memory's word |
| L2Coherence.DiscardLine | design/model/core/l2.c:479-520 | an invalidate without write-back makes exactly that line revert to memory |
| L2Coherence.CmoLineCopied | design/model/core/l2.c:390-421 | when the write-back of a clean or flush is answered, memory holds the words that were sent, and the slot is the flat memory's line |
| L2Coherence.MemoryWritten | design/model/core/l2.c:57-69 | a store of another master to a line outside the cacheable ones changes memory and what requesters see alike and keeps coherence |
| L2Coherence.ClearIff | design/model/core/l2.c:357-368 | the unconditional clear at the end of a clean or flush keeps the flat memory if and only if every word of the slot is still the word that was sent |
| L2Coherence.FlatIsView | design/model/core/l2.c:57-69 | the flat memory is the valid slot, else the line being written back, else memory |
| L2Traffic.ClockKeepsLive | design/model/core/l2.c:873-876 | a clock of an outstanding table retires a freed head and leaves the live requests alone |
| L2Traffic.ReadServed | design/model/core/l2.c:271-294 | read beats come back in the order of the outstanding bypass reads |
| L2Traffic.BypassOwedAppend | design/model/core/l2.c:296-322 | the beats a port owes are those of its outstanding bypass writes, in order |
| L2Ports.PortWrites | design/model/core/l2.c:700-745 | the data beat a cached write consumes is the one its master sent for that address, with the right last flag |
| L2Ports.PortSendsBypass | design/model/core/l2.c:296-322 | a port's next data beat is the next beat of the oldest bypass write when that is its own |
| L2Ports.NoRace | design/model/core/l2.c:479-520 | with a read-only instruction port nobody can store while a cache-block write-back is under way |
| L2Service.EngineOnly | design/model/core/l2.c:121-128 | while the engine is not idle every request and every response on the bus is the engine's |
| L2Service.NothingComes | design/model/core/l2.c:558-583 | a port without an outstanding bypass read has nothing on its way, neither accepted by memory nor returned |
| L2Service.MemServePort | design/model/core/l2.c:271-294 | a bypass beat that memory returns is the next due of its port and follows every beat already on its way there |
| L2Service.MemStorePort | design/model/core/l2.c:296-322 | a bypass beat that memory stores is the next store of its port |
| L2Service.BeatReadPort | design/model/core/l2.c:663-698 | a cached beat is the next due of its port and overtakes nothing |
| L2Service.BeatWrittenPort | design/model/core/l2.c:700-745 | a cached store is the next store of its port, and the response follows the last one |
| L2Service.HeadAsked | design/model/core/l2.c:612-616 | a cache-block operation that a port takes up is one its requester asked for |
| L2Service.Answered | design/model/core/l2.c:324-345 | responses in the order of stores and answers are those of the first writes, all of whose stores have been done |
| L2Service.ServiceDelivers | design/model/core/l2.c:271-345 | what a port was handed is a prefix of the answers to its requests, in order, as the history gives them |
| L2Service.NothingLost | design/model/core/l2.c:522-556 | once nothing of a port is queued or on its way, every read and every write it asked for has been answered in full |
| L2Service.BeatMeans | design/model/core/l2.c:663-698 | the n-th beat a port was handed answers the n-th due of its reads, with the word the flat memory held there at a point of the history |
| L2Service.CleanMeans | design/model/core/l2.c:479-520 | before every answered clean or flush, and after the port's previous answer, there is a moment at which memory's line is the line requesters see, whether it was written back, clean or absent |
| L2Invariant.OldSent | design/model/core/l2.c:195-211 | a word that leaves a slot for memory is one the requesters see at that address at that moment |
| L2Invariant.OldStored | design/model/core/l2.c:177-224 | every word memory stores is one the requesters saw at that address at some point of the history |
| L2Invariant.MemStoreOk | design/model/core/l2.c:296-322 | memory storing a beat keeps the whole invariant, and memory never holds a word that was not seen there |
| L2Invariant.BypassLate | design/model/core/l2.c:423-436 | bypass traffic cannot turn a timely answer of a clock into a late one, nor back |
| L2Invariant.RefillROk | design/model/core/l2.c:245-269 | every refill beat keeps the whole invariant, the last one with the port resumed |
| L2Invariant.CleanedLine | design/model/core/l2.c:410-421 | at a timely answer to a cache-block write-back memory holds the whole line as requesters see it |
| L2Invariant.AbsentLine | design/model/core/l2.c:479-520 | when a clean or flush finds its line not cached, memory already holds it as requesters see it |
| L2Invariant.CmoBOk | design/model/core/l2.c:410-421 | the answer to a cache-block write-back keeps the whole invariant if and only if the slot is still what was sent |
| L2Invariant.OtherOk | design/model/core/l2.c:271-294 | a store of another master outside the cacheable lines keeps the whole invariant |
| L2Invariant.BeatReadOk | design/model/core/l2.c:663-698 | a cached read beat keeps the whole invariant and carries the flat memory's word at its address |
| L2Invariant.BeatWrittenOk | design/model/core/l2.c:700-745 | a cached write beat keeps the whole invariant, whatever write-back is under way |
| L2Invariant.StartCmoOk | design/model/core/l2.c:479-520 | starting a cache-block operation keeps the whole invariant; a line is dropped only on request |
| L2Invariant.MemServeOk | design/model/core/l2.c:271-294 | memory returning a beat keeps the whole invariant |
| L2Stale.LateIsLost | design/model/core/l2.c:357-368 | after a late answer memory lacks a word of the flat memory, and the line is dropped or marked clean |
| L2Stale.StaleLoad | design/model/core/l2.c:357-368 | from reset over any memory there is a run of allowed requests in which a port stores x, then y, has both answered, and reads x |
| L2Cache.L2.Lookup | design/model/core/l2.c:57-69 | finds the slot holding the line, or shows that no valid slot holds it |
| L2Cache.L2.SelectVictim | design/model/core/l2.c:71-83 | the first free slot of the set, or if all are valid the round-robin way, which then moves on |
| L2Cache.L2.Stage | design/model/core/l2.c:873-880 | deferred frees retire, at most one packet per channel and port is captured, nothing is reordered |
| L2Cache.L2.StartMiss | design/model/core/l2.c:121-152 | starts exactly when the engine is idle and no bypass is outstanding; otherwise nothing changes |
| L2Cache.L2.SendWbW | design/model/core/l2.c:195-211 | when the channel is free, sends the next word of the slot and remembers it as sent |
| L2Cache.L2.RecvWbB | design/model/core/l2.c:213-224 | a write response ends the eviction and starts the refill |
| L2Cache.L2.RecvRefillR | design/model/core/l2.c:245-269 | takes only beats of its own refill; the last one installs the line, frees the engine and resumes the port |
| L2Cache.L2.BypassR | design/model/core/l2.c:271-294 | unless nothing is there or the port is full, the read beat goes unchanged to the port of the oldest outstanding bypass read, and its last beat frees the entry |
| L2Cache.L2.BypassW | design/model/core/l2.c:296-322 | when it can, puts on the bus the next beat of the oldest outstanding write and nothing else |
| L2Cache.L2.BypassB | design/model/core/l2.c:324-345 | when it can, hands a response to the port of the oldest outstanding write, after that write's last beat |
| L2Cache.L2.StartBypassRead | design/model/core/l2.c:438-454 | forwards a bypass read unchanged, exactly while the engine is idle, the table has room and the channel is free |
| L2Cache.L2.StartBypassWrite | design/model/core/l2.c:456-477 | the same for a bypass write; by the invariant its data beats stay queued in its port |
| L2Cache.L2.HasBypassPending | design/model/core/l2.c:558-583 | true exactly when the port has a live bypass read or write |
| L2Cache.L2.StartCmo | design/model/core/l2.c:479-520 | starts exactly when the engine is idle and nothing is outstanding; only an invalidate changes what requesters see, and then exactly its line reverts to memory |
| L2Cache.L2.RecvCmoB | design/model/core/l2.c:410-421 | ends a clean or flush; the invariant survives if and only if the answer is not late, and with an instruction port it never is |
| L2Cache.L2.PortRead | design/model/core/l2.c:663-698 | after the latency, a hit hands over the slot's word of this beat's address, a miss starts the engine if it can |
| L2Cache.L2.PortWrite | design/model/core/l2.c:700-745 | after the latency, a hit stores exactly the strobed bytes of this beat unless the data array or the response channel is taken |
| L2Cache.L2.PortIdle | design/model/core/l2.c:585-643 | takes up the oldest write, else the oldest read, a cached one only when no bypass request of the port is outstanding |
| L2Cache.L2.Clock | design/model/core/l2.c:873-884 | one clock runs its parts in order and keeps the whole invariant, if and only if it takes no late answer |
| L2Cache.L2.Run | design/model/core/l2.c:873-884 | every run takes exactly the steps of its schedule; it serves a legal history of one flat memory, hands each port the answers to its requests in order as that history says, reverts lines only on request and only to words they held before, and answers a clean or flush only after memory's line equalled the line requesters see; a read-only instruction port excludes the late answer |
| SdspiTypes.BurstBytesOk | design/model/io/sdspi.c:391-408 | every burst has 1 to 16 beats, is word aligned, stays in the transfer and never crosses 4 KB |
| SdspiTypes.TilesCover | design/model/io/sdspi.c:391-415 | bursts that tile a transfer cover every word exactly once |
| SdspiInvariant.CoreAppend | sim/model/vip/sdspi_vip.c:422-432 | status packets may appear anywhere on the data link without disturbing the rest |
| SdspiSteps.TakesWord | design/model/io/sdspi.c:741-810 | a read word arrives only in the read stream, in order and with the right last flag |
| SdspiSteps.AllFetched | design/model/io/sdspi.c:796-804 | when every word is sent, every word is fetched, the FIFO is empty and the DMA idle |
| SdspiSteps.RTaken | design/model/io/sdspi.c:529-572 | a fetched word always finds room in the 64-word FIFO |
| SdspiSteps.MemStores | design/model/io/sdspi.c:417-463 | storing the beats of a burst extends the part of the buffer that equals the card's data |
| SdspiLink.AcceptedShape | sim/model/vip/sdspi_vip.c:169-193 | only block writes carry data to the card, and their range lies in the image |
| SdspiLink.Prepared | sim/model/vip/sdspi_vip.c:303-349 | an accepted command leaves both sides agreed on the command, its sector, length and direction, a block read with the image's words ready |
| SdspiLink.CardTakesWord | sim/model/vip/sdspi_vip.c:380-420 | a data word reaches only a card that expects it; after the last the image holds the whole buffer |
| SdspiLink.CardTakesConfig | sim/model/vip/sdspi_vip.c:363-375 | configuration only ever reaches an idle card |
| SdspiKeeps.WriteCompletes | design/model/io/sdspi.c:796-804 | at the write acknowledgement every checked condition holds, and the image at the sector of the command's argument equals the buffer over block size times block count |
| SdspiKeeps.ReadCompletes | design/model/io/sdspi.c:500-523 | when the read-back pass ends the input is done, and for block reads the buffer equals the image at the sector of the command's argument |
| SdspiKeeps.ControllerOk | design/model/io/sdspi.c:741-821 | a clock of the controller keeps the whole invariant, unless it takes a refusal that cuts off a burst, which can be tested before the clock |
| SdspiKeeps.ControllerMeans | design/model/io/sdspi.c:499-526 | a clock logs an entry exactly when a data command ends without error; the entry holds the command, DMA_ADDR, the buffer there and the image at its sector, equal word by word for block commands |
| SdspiKeeps.CardOk | sim/model/vip/sdspi_vip.c:465-490 | every clock of the card keeps the whole invariant |
| SdspiKeeps.CardMeans | sim/model/vip/sdspi_vip.c:380-420 | the image changes only when the card takes the last word of a block write; then the sectors from its argument on become the buffer at DMA_ADDR and the rest stays |
| SdspiKeeps.MemStoredOk | design/model/io/sdspi.c:417-463 | memory only ever stores the next word of the running card read, at its place in the buffer |
| SdspiKeeps.NextOk | design/model/io/sdspi.c:812-821 | every step of controller, card, memory, software and other masters keeps the whole invariant, except the refusal that cuts off a burst |
| SdspiKeeps.NextMeans | design/model/io/sdspi.c:812-821 | every step logs exactly the data command it completes, changes the image only by a finished block write, and memory only inside the buffer of the running card read |
| SdspiKeeps.CutOffIff | design/model/io/sdspi.c:766-768 | a clock of the controller breaks the invariant if and only if it takes a refusal while a DMA burst is in flight |
| SdspiStale.StaleWrite | design/model/io/sdspi.c:552-571 | from reset, over any image and any memory in which the two words differ, there is a run in which a refused write is followed by one reported as done without error that puts a word of the first buffer on the card |
| SdspiKeeps.DiskWritten | sim/model/vip/sdspi_vip.c:409-419 | an acknowledged write moves from the image into the logged disk |
| SdspiKeeps.ReadsNow | sim/model/vip/sdspi_vip.c:336-343 | a block read delivers what the logged writes have left at its sectors |
| SdspiKeeps.IdleDisk | sim/model/vip/sdspi_vip.c:409-419 | except between store and acknowledgement the image is the logged writes applied in order |
| Sdspi.ReadConserved | design/model/io/sdspi.c:417-527 | words received equal words sent to memory plus words in the FIFO; no read-back before the input is done |
| Sdspi.WriteConserved | design/model/io/sdspi.c:529-572 | words fetched equal words sent plus words in the FIFO, and the FIFO has room for every outstanding beat |
| Sdspi.SdspiSystem.RecvResponse | design/model/io/sdspi.c:757-776 | an accepted data command enters its data phase, an accepted command without data is done, and only a refusal makes a command fail; with a burst in flight it ends the run |
| Sdspi.SdspiSystem.RecvReadData | design/model/io/sdspi.c:779-794 | the word enters the FIFO; the offset and last checks never fail |
| Sdspi.SdspiSystem.RecvWriteDone | design/model/io/sdspi.c:796-804 | the write is done and logged with its command, the buffer at DMA_ADDR and the image at its sector; no check fails |
| Sdspi.SdspiSystem.RecvB | design/model/io/sdspi.c:462-480 | a response advances the offset by the burst, and starts the read-back pass at offset 0 when everything is stored |
| Sdspi.SdspiSystem.RecvSyncR | design/model/io/sdspi.c:499-526 | the last read-back beat, and no other, completes the card read and logs it, with the input done; every other beat leaves the command alone |
| Sdspi.SdspiSystem.RecvR | design/model/io/sdspi.c:552-571 | pushes the fetched word; the FIFO-full stall and the last-flag error are never taken |
| Sdspi.SdspiSystem.SendW | design/model/io/sdspi.c:443-460 | when it can, moves the oldest FIFO word onto the bus with the right last flag |
| Sdspi.SdspiSystem.UpdatePrefetch | design/model/io/sdspi.c:593-607 | releases the write command exactly when 16 words or the whole transfer are prefetched |
| Sdspi.SdspiSystem.DmaSchedule | design/model/io/sdspi.c:609-630 | starts a burst exactly when there are words to move, where the previous ones ended, and by the invariant no longer than the FIFO's room |
| Sdspi.SdspiSystem.ProtocolTx | design/model/io/sdspi.c:699-714 | sends configuration, command or data word in that order of precedence, and by the invariant always a packet the card expects |
| Sdspi.SdspiSystem.StartCmd | design/model/io/sdspi.c:183-230 | refused exactly while busy, failed at once exactly on a bad request, else started with the latched length and direction |
| Sdspi.SdspiSystem.WriteRegs | design/model/io/sdspi.c:295-360 | the registers take the written values, even while busy, and only a change of enable or clock queues a configuration packet; a write that software must not make while busy does nothing |
| Sdspi.SdspiSystem.Clock | design/model/io/sdspi.c:812-821 | one clock takes its parts in order, keeps the invariant unless a refusal cuts off a burst, and logs a data command exactly when it completes, with buffer and image as they are |
| Sdspi.SdspiSystem.CardClock | sim/model/vip/sdspi_vip.c:465-490 | a pending status goes first, then the answer, data word or acknowledgement of the card's state, else the next packet is taken; the image changes only by the last word of a write |
| Sdspi.SdspiSystem.CardRecvCommand | sim/model/vip/sdspi_vip.c:303-349 | the card answers with an error exactly when it does not accept the command; otherwise it serves that command's sector, length and direction, a block read from the image |
| Sdspi.SdspiSystem.CardRecvWord | sim/model/vip/sdspi_vip.c:380-420 | the last word stores the whole buffer in the image and nothing else changes it |
| Sdspi.SdspiSystem.SetCardPresent | sim/model/vip/sdspi_vip.c:111-125 | an image below one sector never counts as a card |
| Sdspi.SdspiSystem.OtherStore | design/model/io/sdspi.c:337-339 | other masters may write any word outside the running buffer |
| Sdspi.SdspiSystem.Run | design/model/io/sdspi.c:812-821 | every run takes exactly the steps of its schedule without a protocol, packet or DMA error; each completed data command is logged with the buffer at DMA_ADDR equal, for block commands, to the image at the sector of its argument, with tiling bursts; the image is the logged writes in order and block reads have read it; only a refusal that cuts off a burst ends the run early |
| SmpHandshake.RunKeeps | base/model/base/smp_opt.c:121-249 | the handshake invariant holds after every schedule of both threads |
| SmpHandshake.ExactlyOnce | base/model/base/smp_opt.c:153-249 | tasks run are the submissions in order, once each, with their own cycle; run_epoch is done_epoch or one more; a drain returns only when nothing is left or running |
| SmpHandshake.ShadowStable | base/model/base/smp_opt.c:218-227 | the cycle shadow does not change under a running task |
| SmpHandshake.NeverSleepsThrough | base/model/base/smp_opt.c:121-151 | a worker blocked on run_epoch has seen it, or the host is between its increment and its wake |
| SmpHandshake.LateWorkerNeverRuns | base/model/base/smp_opt.c:153-172 | if the first read of run_epoch comes after a submission, that task never runs and no drain returns |
| SmpHandshake.LostIffLate | base/model/base/smp_opt.c:153-172 | a waiting worker has missed a submission if and only if it started late |
| SmpHandshake.WorkerCanBeLate | base/model/base/smp_opt.c:184-200 | a schedule in which the worker starts late |
| SmpHandshake.DestroyBounds | base/model/base/smp_opt.c:202-216 | destroy frees only after the worker has left, never joins a sleeping worker, and changes the number of runs by at most one |
| SmpHandshake.DestroyAfterDrain | base/model/base/smp_opt.c:202-249 | a destroy called after a drain has returned drops nothing |
| SmpHandshake.DroppedIff | base/model/base/smp_opt.c:202-216 | with a worker that started in time and on every continuation to the end, destroy drops the last task if and only if at the moment it sets stop the task is not started and the worker not past its test of stop |
| SmpHandshake.AddedIff | base/model/base/smp_opt.c:202-216 | with a worker that started in time and on every continuation to the end, destroy adds a run if and only if at its publication everything has run and the worker is between its loads of stop and run_epoch |
| SmpHandshake.DestroyCanDrop | base/model/base/smp_opt.c:202-216 | a schedule in which destroy drops a submitted task |
| SmpHandshake.DestroyCanAdd | base/model/base/smp_opt.c:202-216 | a schedule in which destroy makes the worker run the task once more |
| SmpHandshake.OversleptIff | base/model/base/smp_opt.c:241-248 | a drain sleeps past its published target if and only if its re-read value was already the target |
| SmpHandshake.OversleptForever | base/model/base/smp_opt.c:241-248 | from then on no schedule without a signal wakes it |
| SmpHandshake.DrainCanOversleep | base/model/base/smp_opt.c:229-249 | a schedule that gets there |
| SmpSnapshot.RunKeeps | base/model/base/itf.c:462-472 | buffer and sequence number always tell which packet is whole |
| SmpSnapshot.ReadsAreWhole | base/model/base/itf.c:525-537 | a read during fewer than 2^31 publications returns one whole packet, the latest throughout the read |
| SmpSnapshot.ReadCanTear | base/model/base/smp_opt.c:59-64 | at 2^31 publications a read can return a mixture |
| Fifo.Fifo.Push | base/model/base/fifo.c:33-41 | appends to the queue |
| Fifo.Fifo.Pop | base/model/base/fifo.c:43-51 | removes and returns the oldest element |
| Fifo.Fifo.Front | base/model/base/fifo.c:53-59 | the oldest element |
| Fifo.Fifo.Clear | base/model/base/fifo.c:61-65 | empties the queue in place |
| OstQueue.Stored | base/model/base/ost.c:135-157 | filling the slot behind the last entry appends to the ordered table |
| OstQueue.Dropped | base/model/base/ost.c:99-113 | clearing the head slot removes the oldest entry |
| OstQueue.Ostq.Alloc | base/model/base/ost.c:135-157 | appends unless every slot is taken; the slot was free |
| OstQueue.Ostq.PeekHead | base/model/base/ost.c:159-176 | the oldest entry, unless it has been freed |
| OstQueue.Ostq.FreeHead | base/model/base/ost.c:178-187 | marks the head; at most one free is ever pending |
| OstQueue.Ostq.Clock | base/model/base/ost.c:90-114 | removes a freed head and nothing else |
| OstQueue.Ostq.WriteSlot | base/model/base/ost.c:195-199 | rewrites one live entry in place |
| OstKeyed.SomeFree | base/model/base/ost.c:226-242 | below the depth there is a free slot |
| OstKeyed.CountIsLength | base/model/base/ost.c:371-396 | the count of valid slots is the length of the allocation list |
| OstKeyed.AfterClock | base/model/base/ost.c:317-349 | retiring the freed slots leaves the live allocations in the same order |
| OstKeyed.SmallestIsFirst | base/model/base/ost.c:398-427 | the live slot with the key and the smallest issue number is the oldest live allocation with that key |
| OstKeyed.Ostk.FindFreeSlot | base/model/base/ost.c:226-242 | finds a free slot exactly when the table is not full; the fall-through is unreachable |
| OstKeyed.Ostk.Alloc | base/model/base/ost.c:371-396 | appends to the allocation list unless the table is full |
| OstKeyed.Ostk.PeekKey | base/model/base/ost.c:398-427 | the oldest live allocation with the key, or none exists |
| OstKeyed.Ostk.FreeSlot | base/model/base/ost.c:429-435 | marks one allocation and leaves the others and the order alone |
| OstKeyed.Ostk.Clock | base/model/base/ost.c:317-349 | keeps exactly the live allocations, in order |
| Ram.BeatRing | design/model/mem/ram.c:453-487 | a data beat changes only the entry of the first request still owed data |
| Ram.BeatCloses | design/model/mem/ram.c:464-470 | a beat ends its burst exactly on the last flag or at full length |
| Ram.BeatMemory | design/model/mem/ram.c:453-487 | memory after a beat is the bursts so far applied in order |
| Ram.WritePath.AcceptAw | design/model/mem/ram.c:421-451 | takes a request unless 1024 are pending |
| Ram.WritePath.AcceptW | design/model/mem/ram.c:453-487 | takes a beat exactly when some request is owed data |
| Ram.WritePath.SendB | design/model/mem/ram.c:489-507 | answers the oldest request exactly when its data is complete and its latency over |
| Ram.WritePath.Run | design/model/mem/ram.c:509-516 | over the accepted requests and beats of the schedule: the k-th request gets the k-th group of beats, responses leave in order and not before last beat plus latency, memory is the bursts applied in order |
| Plic.BestUnique | design/model/core/plic.c:56-80 | the best source is unique |
| Plic.ClaimFresh | design/model/core/plic.c:105-113 | handing out a source that is not being served never repeats a claim without completion |
| Plic.EnableIff | design/model/core/plic.c:175-180 | some register write can enable a disabled source if and only if its number is not a multiple of 32 |
| Plic.NeverHandedOut | design/model/core/plic.c:175-180 | in no run from reset is a source enabled or claimed whose number is a multiple of 32 |
| Plic.LastInputLost | design/model/core/plic.c:177 | a run in which the last input is high, its source pending with priority 7 and its enable bit written, and the claim returns 0 |
| Plic.Controller.FindBest | design/model/core/plic.c:56-80 | the lowest-numbered source of the highest priority above the threshold, 0 only when there is none |
| Plic.Controller.UpdateIrq | design/model/core/plic.c:94-103 | the line is high exactly when some source may be handed out |
| Plic.Controller.DoClaim | design/model/core/plic.c:105-113 | hands out the best source, never one that is being served |
| Plic.Controller.Sample | design/model/core/plic.c:223-237 | exactly the active inputs whose source is not being served become pending |
| Plic.Controller.Apb | design/model/core/plic.c:123-197 | the registers after each kind of access with the first bit of every enable word masked out, the source a claim returns, and the history that records exactly the claims and completions |
| Plic.Controller.Clock | design/model/core/plic.c:269-275 | after each clock the line tells whether a source may be handed out |
| Plic.Controller.Run | design/model/core/plic.c:269-275 | the history of a run is exactly the claims returned and the completions made; no source is claimed twice without completion, no source that is a multiple of 32 is enabled or claimed, pending and claimed stay apart, and the line is exact after each clock |
| BootFormat.Digits | cases/bare/boot/boot_media.c:18-22 | the four little-endian bytes make up the word |
| BootFormat.HeaderRoundTrip | desc/include/boot_image.h:17-28 | decoding any image that starts with an encoded header gives the header |
| BootFormat.WriteBlobAligned | tools/mkbin.c:38-50 | appends the blob and zeros up to a multiple of four |
| BootFormat.Mkbin | tools/mkbin.c:88-137 | writes header and blobs, or nothing when an input is missing or empty |
| BootFormat.ConcatAt | tools/mkbin.c:120-135 | every blob stands at the offset the loader computes |
| BootFormat.ImageLayout | tools/mkbin.c:107-135 | in any media that starts with a packed image the header decodes and every blob is at its offset |
| BootLoader.OverlapExact | cases/bare/boot/boot_loader.c:15-20 | the overlap test is true exactly when the ranges share an address |
| BootLoader.LoadRangeValid | cases/bare/boot/boot_loader.c:22-36 | true exactly for ranges in DDR, word aligned, clear of stack and staging buffer |
| BootLoader.MediaRangeValid | cases/bare/boot/boot_media.c:40-52 | true exactly when the sum does not wrap and the sectors suffice |
| BootLoader.HeaderValid | cases/bare/boot/boot_loader.c:60-86 | true exactly when fields, load ranges and the unwrapped total size are sound |
| BootLoader.SectionFits | cases/bare/boot/boot_loader.c:129-136 | every section of an accepted header lies in the media and its offset never wraps |
| BootLoader.RoundBlocks | cases/bare/boot/boot_media.c:59-72 | every staged round reads between 1 and 128 blocks, all inside the partition |
| BootLoader.ExpectedLast | cases/bare/boot/boot_loader.c:129-136 | a byte comes from the last section that covers it |
| BootLoader.StackSurvives | cases/bare/boot/boot_loader.c:22-36 | loading an accepted image leaves the stack alone |
| BootLoader.Machine.CopyBytes | cases/bare/boot/boot_media.c:24-38 | word and byte loops copy exactly the source bytes |
| BootLoader.Machine.SdRead | cases/bare/boot/boot_media.c:54-81 | puts exactly the wanted bytes in place, reads only inside the partition, never fails on a working card |
| BootLoader.Machine.MediaRead | cases/bare/boot/boot_media.c:83-94 | a range error exactly for ranges outside the media, an I/O error only on failing media |
| BootLoader.Machine.Open | cases/bare/boot/boot_media.c:96-128 | accepts exactly a card with one sound raw partition, with its extent |
| BootLoader.Machine.LoadSection | cases/bare/boot/boot_loader.c:88-112 | chunk by chunk puts the whole section in place; no range error |
| BootLoader.Machine.LoadImage | cases/bare/boot/boot_loader.c:114-138 | refuses exactly unacceptable headers; on success memory is the sections in order, everything else untouched; failures only from the media |
| BootRoundTrip.AcceptedIff | cases/bare/boot/boot_loader.c:60-86 | the loader accepts a packed image exactly when sizes and ranges are sound and it fits the media |
| BootRoundTrip.IntactIff | cases/bare/boot/boot_loader.c:76-84 | among packed images with the same accepted header, a section is in place after every load if and only if no later one is loaded over it |
| BootRoundTrip.OverlapAccepted | cases/bare/boot/boot_loader.c:76-84 | a packed image whose kernel has the firmware's load address is accepted |
| BootRoundTrip.LoadOverlap | cases/bare/boot/boot_loader.c:114-138 | loading it reports success and leaves the kernel's byte in the firmware's place |
| BootRoundTrip.LoadPacked | cases/bare/boot/boot_loader.c:114-138 | loading a packed image from flash or card puts every blob not overwritten by a later one at its address |
| BootRoundTrip.BlobIsFile | tools/mkbin.c:34 | the packed blob is the file exactly below 4 GB |

## Left out

- L2 storage, SD-SPI stream FIFO, card buffer, image and boot memory are sequence-valued fields that methods reassign; aliasing between buffers is not expressed. `Ring`, `OstQueue`, `OstKeyed` and `Ram` use arrays in place.
- L2 uses the ordered tables and staging FIFOs through their abstract contents (`OstQueue.Table`, sequences), not through the classes.
- Interface FIFOs of `itf.c` are unbounded sequences whose full signals are inputs of a run; their packet ring is the ring of `Fifo`.
- Memory behind the L2 and the DMA port applies the last beat of a burst and posts its response in one step.
- L2 fairness between ports, performance counters, bus error responses, and requests that mix cached and bypass accesses to one line.
- L2Cache.L2.Run: requesters send only the three cache-block operations of `design/model/spec/core/cache.h:43-45` (`WellFormedAr`); a tagged request with another operation field is not followed.
- L2Cache.L2.Run: followed up to the first clock that takes a late answer; `L2Stale.LateIsLost` and `L2Stale.StaleLoad` show what happens after it.
- SD-SPI software reset, AXI error responses, interrupt and status registers, the contents of the card's register reads (CSD, CID, SCR, status), and short image reads or writes.
- Sdspi.SdspiSystem.Run: followed up to the first refusal that cuts off a burst; `SdspiStale.StaleWrite` shows what can happen after it.
- Sdspi.SdspiSystem.Run: the card presence reported by packets other than a status, and what the card's buffer holds when a command does not read the image, are inputs of a run.
- Sdspi.SdspiSystem.Run: transfers are counted in words, because the controller refuses lengths and addresses that are not multiples of four; the byte strobes of register writes are not modelled.
- `SmpHandshake` and `SmpSnapshot` are transition functions over values, not methods over a heap, because a run interleaves the steps of two threads.
- Liveness: nothing says that a transfer, a drain or a miss ends; weak memory orders are replaced by sequential consistency.
- SmpHandshake.ExactlyOnce: an epoch word is kept as the count it would be without wrap-around, and the threads compare the words; the sleeper counts, which are 0 or 1, do not wrap.
- The lock of `smp_opt.c` and the unprotected signal and FIFO interfaces.
- OstKeyed.Ostk.Alloc: the 64-bit issue counter does not wrap, and the read pointer, which nothing reads, is not kept.
- Ram: the read path, the BTI ports and the zero-latency path, which are simpler instances of the same ring.
- Plic: the bit words are one flag per source, and address decoding is replaced by the kinds of access.
- Boot: console output, cache maintenance, the card driver itself (its reads either fail or deliver the blocks), command-line parsing of the packer, and big-endian hosts.
- Hart, L1, MMU, bus fabric, UART, GPIO, timers, debugging, tracing, user interfaces and generators.
