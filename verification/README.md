# Verification of the cosmos-isc SSD firmware and in-storage programs

This project models the NVMe SSD firmware under `ftl/neoftl` (the build with `ftl/simple` and
`fil/nand`), the RAM disk under `ftl/polling_ram`, and the in-storage programs under `ssd`, and
proves what they promise. `dafny verify dfyconfig.toml` checks everything.

## The command pipeline

A host command travels through bounded ring queues, is given a ring of DMA buffers, gets physical
pages from a log-structured allocator, fans out into per-way lists of NAND operations and comes back
to be freed. `Pipeline` is that as a state machine whose steps (one command moved, one NAND operation
finished, one DMA transfer completed) may interleave in any order. `Invariant` says what every
reachable state satisfies; `Preservation`, `FtlPreservation`, `FilFanOut` and `FilFinish` prove it of
each step, `Machine` of every run. `Theorems` draws the conclusions: reads return the last write,
nothing is lost or used twice, every command completes exactly once, the flash is erased and
programmed in a fixed order. `Completion` counts completions over whole runs, `TableHistory` traces
every table entry to the write it comes from, and `FirstWrite` is a concrete run. `Progress` proves
that the pipeline never gets stuck and always drains.

`Schedule` is the cyclic schedule of `ftl/neoftl/target/main.c` and `run.h` without
`FTL_MULTI_THREAD`: hil_run, ftl_run, fil_run, over and over. Under it no queue overflows, and
`RealTimeOrder` and `HostOrder` prove that the disk is linearizable even though writes are completed
to the host before they take effect. `RoundSteps` proves that rounds are runs of the machine and that
they make progress or wait for the NAND.

`Delivery` proves that nothing asked for is lost: every command taken from the host takes effect as it
was given, and every block of every read is handed over.

`NandWay` is the NAND driver: three polled protocols that share one step cell. `NandOutcomes` spells
out, bit by bit, what it does with each word it sees and which row and buffer each command names.
`NandTraffic` puts the drivers of the 64 ways under the pipeline, so that an operation finishes when
its driver says so, and `NandMedium` puts a medium behind each controller that knows only the commands
it is sent: its rows hold what the pipeline takes the flash to hold, and reads load it. `DrivenRounds`
and `DrivenMedia` do the same for the main loop, and `DrivenDrain` proves that this loop comes to rest
whenever the NAND works often enough. `Firmware` is the C code itself, globals, loops, drivers, DMA
engine and controller task, proved to do to its variables exactly what those rounds say.

The histories in the state (`hist`, `log`, `note`, `entered`, `sent`, `loc`, `own`, `pos`, and
`idAt`, `keyAt` of the request lists) record what happened; no step's effect on the program's
variables depends on them, with one shortcut: `MapCmd` takes the write counters from the length of
the log. `Firmware.AdvanceCounters` and `Firmware.MapWrite` do it with the nested ifs of the C code
and are proved equal.

## The other parts

- `CmdQueue`: the ring buffers, including what the unchecked operations do to full and empty rings.
- `DmaPool`: circular lists and the buffer pool, pointer by pointer.
- `HostDma`: the wrapping DMA counters against unbounded counts. The partial-done decision is right
  for every completed count if and only if the recorded position is less than 2^40 transfers old or
  lies at least 255 transfers behind modulo 2^40.
- `RamDisk`, `RamDiskSafety`, `RamDiskProgress`, `RamDiskHost`: the two threads of the RAM disk, step
  by step, in every interleaving: what they keep, that they come to an end, and that the host gets what
  it wrote, by its own addresses. Addresses 2^20 blocks apart are one, because `lba * 4096` is computed
  in 32 bits.
- `Tokens`, `WordCount`, `Grep`, `IscStream`: splitting a file in pieces equals splitting it whole,
  and the ping-pong protocol feeds the splitter exactly the file.

## Assumptions

- Host commands have 1 to 256 blocks (NLB is 0-based, MDTS is 8: section 5.11 of NVM Express 1.1) and
  stay inside the disk; the C code checks the first LBA only.
- The NAND carries out the commands it is sent, as `NandMedium.Served` says. The driver reports DONE
  also after giving up on a read or after a failed program or erase, and the data theorems do not cover
  those; when it gives up is `NandOutcomes.EveryReadEnds`.
- A read of a block never written leaves its buffer as it was, as in the C code, so the theorems speak
  of written blocks.
- After 3,784,704 block writes the FTL's assertion fails; `Firmware.FtlProcessQ` proves when.
- A status word the device has written with its report bit stays until the driver clears it. Liveness
  assumes that answers are there when the driver looks for them; what happens when they are not is
  `NandWay.EraseHangs`.
- The model takes up a DMA completion when it happens or later, at the latest when a wait loop has seen
  that every issued transfer is complete. Interrupts come between rounds.
- Every write whose receive DMA has been started is counted as possibly complete to the host.
- Buffers of live RAM disk commands do not overlap.
- A file given to the in-storage programs has no NUL, ends in a delimiter, and has no word of 64 or
  line of 400 characters or more.
- The firmware behind the in-storage programs may take any steps while the program runs, and
  eventually serves the slot being polled; likewise the DMA engine.

Where the code and an expectation differ: no block is erased while it holds data, but blocks are
erased while the table points into them, because it is updated when a command leaves ftl_wait_q.
`FirstWrite.FirstWriteErasesMapped` is a run in which it happens, `TableHistory.ErasedUnmappedIff`
says exactly when it does not.

## Model

| member | source | states |
|---|---|---|
| `Theorems.ReadsReturnLastWrite` | ftl/neoftl/ftl/simple/ftl.c:44-105 | in every run, a block that reached the host for a read is the block of the last write to that address that left ftl_wait_q before the read, although the table is updated long before the page is programmed |
| `Theorems.ReplayIsLastWrite` | ftl/neoftl/ftl/simple/ftl.c:63-104 | the abstract disk holds at every address what the last write covering it stored, and nothing where no write has been |
| `Theorems.TransmitBufferStable` | ftl/neoftl/hil/hil.c:180-207 | while a transmit descriptor is outstanding its buffer is owned by the read it belongs to and holds the block to be returned |
| `RealTimeOrder.Linearizable` | ftl/neoftl/hil/hil.c:45-52 | in every run of rounds the commit history is that of an atomic disk with distinct commands, and everything possibly complete when a command was fetched takes effect before that command |
| `RealTimeOrder.DeliversTheAtomicDisk` | ftl/neoftl/hil/hil.c:45-52 | in every run of rounds what the host receives is what that atomic disk answers |
| `RealTimeOrder.DmadoneWritesOrder` | ftl/neoftl/hil/hil.c:210-229 | a break out of the write loop leaves ftl_wait_q full, so init cannot let a later read overtake a write that is already complete to the host |
| `RealTimeOrder.EveryRoundOrdered` | ftl/neoftl/hil/hil.c:45-52 | every round keeps commands in the order their completions allow, for all arrivals, transfers and NAND timings |
| `RealTimeOrder.FetchRecordsCompleted` | ftl/neoftl/hil/hil.c:66-106 | the set a fetched command is ordered after contains every write whose receive DMA was started and everything that has entered ftl_wait_q |
| `HostOrder.HostOrderKept` | ftl/neoftl/hil/hil.c:45-52 | over all rounds: if a command may have been complete to the host when round r fetched another, it takes effect before that one in every continuation |
| `FilFanOut.FanOutNeverStarves` | ftl/neoftl/fil/nand/fil.c:30-46 | new_req is never NULL in fil_add_req: the pool holds enough requests for the whole command at the head of nand_wait_q |
| `RequestQueues.FreeKeyMeansPooled` | ftl/neoftl/common/cmd_internal.c:86-102 | each outstanding request is charged to one erase or one data slot of a DMA buffer, so a free slot means a pooled request |
| `Theorems.CommandsConserved` | ftl/neoftl/hil/hil.c:108-263 | every command struct is in exactly one queue, once, or has a request listed, never both |
| `Theorems.BuffersConserved` | ftl/neoftl/common/cmd_internal.c:134-221 | every DMA buffer is in the pool, once, or in exactly one slot of one live command |
| `Theorems.RequestsConserved` | ftl/neoftl/fil/nand/fil.c:30-46 | every request struct is in the pool, once, or on exactly one list at one position |
| `Theorems.FilHasRequest` | ftl/neoftl/fil/nand/fil.c:110-179 | a command is in the FIL exactly while a request of it is listed |
| `Theorems.CompletesExactlyOnce` | ftl/neoftl/fil/nand/fil.c:143-175 | finishing an operation appends its command to the right completion queue exactly when no request of it is left, and it was in neither queue before |
| `Completion.CompletedExactlyOnce` | ftl/neoftl/fil/nand/fil.c:143-175 | over every run: a fetched command has been appended to the two completion queues together exactly once if it is past the FIL and not at all before, and nothing else ever is |
| `Completion.RoundsCompleteOnce` | ftl/neoftl/target/main.c:19-40 | the same for the main loop after any rounds |
| `Delivery.FetchedIsAnswered` | ftl/neoftl/hil/hil.c:210-263 | in every run a fetched command that no struct carries any more has taken effect as fetched: a write stored its payload at its address, a read has had each of its blocks handed to the host, with what the disk held when it took effect |
| `Delivery.RoundsAnswer` | ftl/neoftl/target/main.c:19-40 | the same for the main loop: every command that arrived when init_q had room and a struct was free |
| `Delivery.CommitsAreFetched` | ftl/neoftl/hil/hil.c:66-106 | nothing else takes effect: every commit has the address, length and data of the fetched command with its number, and a struct in flight still carries what was fetched |
| `Theorems.FanOutCompletes` | ftl/neoftl/fil/nand/fil.c:60-83 | a read with no mapped block completes in fil_process_wait; every other command leaves it with requests listed |
| `Theorems.FlashFollowsScript` | ftl/neoftl/fil/nand/fil.c:84-103 | on every way and in every run the erases and programs executed are Erase(50), Program(50,0), ..., Program(50,127), Erase(51), ... |
| `FilFinish.AlwaysDisciplined` | ftl/neoftl/fil/nand/fil.c:128-141 | the first request of a way always fits the medium: a read finds its page programmed, a program the next page of an erased block, an erase a block without data |
| `Theorems.EraseDestroysNothing` | ftl/neoftl/fil/nand/fil.c:95-98 | the block an erase is about to clear holds no programmed page |
| `Theorems.EraseWhileMapped` | ftl/neoftl/ftl/simple/ftl.c:69-100 | whenever a write is given page 0 of a block and nothing waits ahead of it, the erase of that block is listed while the new table entry already leads into the block |
| `FirstWrite.FirstWriteErasesMapped` | ftl/neoftl/ftl/simple/ftl.c:63-104 | that no block is erased while the table points into it is false: from the start state any one-block write reaches in eight steps a state where the erase of block 50 is first on way 0 and can be finished, and its entry leads into that block before the erase and after it |
| `Theorems.MappedBeforeErased` | ftl/neoftl/ftl/simple/ftl.c:69-100 | right after the mapping of a write given page 0, its entry leads into a block not yet erased |
| `TableHistory.ErasedUnmappedIff` | ftl/neoftl/ftl/simple/ftl.c:69-100 | in every run, when an erase is the first request of a way, no table entry points into its block if and only if every host block that was given a page of it has been overwritten by a later write; the condition is on the sequence of host writes alone |
| `TableHistory.EveryRunTraced` | ftl/neoftl/ftl/simple/ftl.c:63-104 | in every run a table entry is valid exactly when its address has been written, and is then the log page of that block of the last write covering it |
| `TableHistory.LocatedIsLastWrite` | ftl/neoftl/ftl/simple/ftl.c:63-104 | the log position traced for an address is that of the last write covering it: the blocks of all earlier writes plus the offset in this one |
| `TableHistory.EraseMadeFor` | ftl/neoftl/fil/nand/fil.c:95-98 | behind every erase at the head of a way is a host block that was given a page of that block; unless a later write has overwritten it, the table points into the block |
| `Theorems.RequestsAddressable` | ftl/neoftl/fil/nand/fil_nand.c:733-744 | every request's channel, way, block and page pass the driver's range assertion |
| `Progress.NeverStuck` | ftl/neoftl/hil/hil.c:108-245 | while any command is in flight some step other than a fetch is possible, unless the next write would use up the log |
| `Progress.RankDrops` | ftl/neoftl/hil/hil.c:108-245 | every step other than a fetch strictly lowers a rank built from pipeline stages, buffers and outstanding requests |
| `Progress.Drains` | ftl/neoftl/hil/hil.c:108-245 | a stretch of steps without fetches, interleaved in any way, is no longer than the rank it starts from and can end only with every command back in the pool, or with the log used up |
| `RoundSteps.RoundSteps` | ftl/neoftl/target/main.c:19-40 | every round of the main loop is a sequence of machine steps; without an arrival it fetches nothing, and it does nothing only if there was nothing to do |
| `RoundSteps.RoundsAreARun` | ftl/neoftl/target/main.c:19-40 | the state after any rounds is the last state of a run of the machine, so what holds of every run holds of the main loop; and that run fetches exactly the commands that arrived when fewer than 127 waited in init_q and a struct was free |
| `RoundSteps.RoundsFollowScript` | ftl/neoftl/target/main.c:19-40 | what a way has executed after any rounds is the beginning of its script |
| `RoundSteps.RoundDrops` | ftl/neoftl/target/main.c:19-40 | a round without an arrival strictly lowers the rank while a command is in flight and the log has room, unless the NAND is all there is to wait for: then it changes nothing and some way with a request does not report done |
| `DrivenDrain.RoundsDrain` | ftl/neoftl/target/main.c:19-40 | the main loop with its drivers drains: once nothing arrives any more, after as many stretches in which the NAND works as the rank says, every command is back in the pool or the log is used up; between the stretches the drivers may see anything |
| `DrivenDrain.StretchDrops` | ftl/neoftl/fil/nand/fil.c:110-179 | a stretch of rounds in which status and completion words are there when the drivers look for them, and every way is found ready 36 times, strictly lowers the rank |
| `DrivenDrain.RoundOrLooks` | ftl/neoftl/target/main.c:19-40 | a round of the main loop without an arrival lowers the rank, or nothing but the drivers moves and none of them returns DONE |
| `DrivenDrain.PromptDrain` | ftl/neoftl/target/main.c:19-40 | with a NAND that is never busy the main loop drains in a fixed number of rounds, whatever rounds came before |
| `Progress.RankBounded` | ftl/neoftl/common/cmd_internal.c:223-255 | the rank is at most 23,073,280 in every reachable state |
| `NandWay.LookGains` | ftl/neoftl/fil/nand/fil_nand.c:168-660 | a driver call that finds its answer never loses ground and gains some when the way takes commands, also when the operation has failed |
| `Schedule.HilRunQueues` | ftl/neoftl/hil/hil.c:45-52 | every hil_run leaves done_q and read_dma_wait_q empty and every queue within its capacity |
| `Schedule.PollUpToQueues` | ftl/neoftl/fil/nand/fil.c:110-179 | polling k ways adds at most k commands to the two completion queues together |
| `Schedule.BeforeFilQueues` | ftl/neoftl/target/main.c:19-40 | when fil_run starts, done_q and read_dma_wait_q are empty and every other queue is within its capacity |
| `Schedule.RoundQueues` | ftl/neoftl/target/main.c:19-40 | a round that starts with every queue within its capacity and at most 65 completions queued ends so |
| `Schedule.EveryRound` | ftl/neoftl/target/main.c:19-40 | the invariant and the queue bounds hold after every round of every run |
| `Machine.StartHolds` | ftl/neoftl/common/cmd_internal.c:223-255 | the state after cmd_internal_init satisfies the invariant |
| `Machine.StepKeeps` | ftl/neoftl/hil/hil.c:45-52 | every step of the machine keeps the invariant |
| `Machine.EveryRun` | ftl/neoftl/target/main.c:19-40 | the invariant holds in every state of every interleaving of firmware, DMA and NAND steps |
| `Preservation.FetchKeeps` | ftl/neoftl/hil/hil.c:66-106 | taking a host command into init_q keeps the invariant |
| `Preservation.GrabKeeps` | ftl/neoftl/hil/hil.c:117-124 | giving the head of init_q its buffers keeps the invariant, in particular sole ownership of buffers |
| `Preservation.PassInitKeeps` | ftl/neoftl/hil/hil.c:126-146 | passing the head of init_q on keeps the invariant |
| `Preservation.IssueRxKeeps` | ftl/neoftl/hil/hil.c:152-179 | issuing receive DMA keeps the invariant: each buffer is about to receive its own block |
| `Preservation.IssueTxKeeps` | ftl/neoftl/hil/hil.c:180-207 | issuing transmit DMA keeps the invariant |
| `Preservation.PassWrittenKeeps` | ftl/neoftl/hil/hil.c:212-229 | passing a received write to ftl_wait_q keeps the invariant: its buffers hold the host's blocks |
| `Preservation.RetireReadKeeps` | ftl/neoftl/hil/hil.c:231-244 | retiring a sent read keeps the invariant |
| `Preservation.RetireWriteKeeps` | ftl/neoftl/hil/hil.c:247-263 | retiring a finished write keeps the invariant |
| `Preservation.RxArriveKeeps` | ftl/neoftl/hil/host_lld.c:356-386 | a receive transfer completing at any time keeps the invariant |
| `Preservation.TxLeaveKeeps` | ftl/neoftl/hil/host_lld.c:324-354 | a transmit transfer completing at any time keeps the invariant and delivers the right block |
| `FtlPreservation.MapReadKeeps` | ftl/neoftl/ftl/simple/ftl.c:44-61 | mapping a read keeps the invariant: each address it copies leads to the block it must return, even if that page is not programmed yet |
| `FtlPreservation.MapWriteKeeps` | ftl/neoftl/ftl/simple/ftl.c:63-104 | mapping a write keeps the invariant: new table entries and log agree with the disk after the write |
| `FtlPreservation.WritesFitEnd` | ftl/neoftl/ftl/simple/ftl.c:69-103 | whatever blocks a write is given, its operations continue the script of every way |
| `FilFanOut.FanOutKeeps` | ftl/neoftl/fil/nand/fil.c:48-108 | turning a command into requests keeps the invariant |
| `FilFanOut.CmdOpsKeys` | ftl/neoftl/fil/nand/fil.c:64-103 | the requests of one command never claim the same slot of a buffer twice |
| `FilFinish.FinishKeeps` | ftl/neoftl/fil/nand/fil.c:143-175 | finishing an operation keeps the invariant |
| `RequestQueues.EnqueueAllValid` | ftl/neoftl/fil/nand/fil.c:30-46 | requests with free, distinct slots can be added one after the other without emptying the pool, and all stay accounted for |
| `RequestQueues.EnqueueAllOps` | ftl/neoftl/fil/nand/fil.c:30-46 | the list of each way grows by its own requests in order |
| `RequestQueues.DequeueValid` | ftl/neoftl/fil/nand/fil.c:174-175 | removing the first request of a way returns its struct to the pool and frees its slot |
| `WayScript.EraseFits` | ftl/neoftl/fil/nand/fil.c:95-98 | carrying out the erase that is next in the script keeps a way's medium and the log in agreement |
| `WayScript.ProgramFits` | ftl/neoftl/fil/nand/fil.c:100-100 | carrying out the program that is next in the script of a way makes its medium hold one more write of the log |
| `WayScript.ReadFits` | ftl/neoftl/fil/nand/fil.c:128-131 | a read that fits the script finds the logged block on the medium |
| `NandAddress.BumpIsSuccessor` | ftl/neoftl/ftl/simple/ftl.c:77-97 | the cascaded counters go from the digits of n to the digits of n + 1, and reach the assertion exactly on write 3,784,704 |
| `NandAddress.AddrOfFacts` | ftl/neoftl/ftl/simple/ftl.c:68-72 | the address of the n-th block write fits its bit fields, is on way n mod 64, and determines n |
| `NandAddress.RowAddressInjective` | ftl/neoftl/fil/nand/fil_nand.c:773-829 | different block and page numbers of a die have different row addresses |
| `NandAddress.AllocationInjective` | ftl/neoftl/ftl/simple/ftl.c:77-97 | different block writes get different channel, way and row address |
| `Firmware.Firmware.constructor` | ftl/neoftl/common/cmd_internal.c:223-255 | the initialised globals agree with the model's start state, done_q is an empty ring, nothing is issued to the DMA engine, and all 64 drivers are idle |
| `Firmware.Firmware.HilBlock` | ftl/neoftl/hil/hil.c:66-106 | hil_read_block and hil_write_block do exactly the fetch step; their queue assertion holds |
| `Firmware.Firmware.NvmeRun` | ftl/neoftl/hil/nvme_main.c:18-82 | the task status goes through its states as the configuration bits say, and a read or write reaches the pipeline exactly while it is RUNNING, with room in init_q and a pooled struct |
| `Firmware.Firmware.DevIrqHandler` | ftl/neoftl/hil/host_lld.c:45-108 | the tests of the interrupt handler, the last that applies winning, set the task status |
| `Firmware.NothingBeforeEnable` | ftl/neoftl/hil/nvme_main.c:18-33 | until the host enables the controller the task is never RUNNING |
| `Firmware.Firmware.HilProcessDoneq` | ftl/neoftl/hil/hil.c:247-263 | the loop over the ring done_q retires every finished write, as the schedule says |
| `Firmware.Firmware.HilProcessDmadone` | ftl/neoftl/hil/hil.c:210-245 | the two loops, each behind its wait on the DMA counters, pass on all received writes until ftl_wait_q is full and retire all sent reads |
| `Firmware.Firmware.IssueRxBlocks` | ftl/neoftl/hil/hil.c:165-173 | issuing descriptors block by block along the ring, each when the engine has room, binds buffer i to block i of the host and advances the count of issued transfers by the size of the command |
| `Firmware.Firmware.HilProcessDmawait` | ftl/neoftl/hil/hil.c:150-208 | the two loops issue DMA for every waiting command that fits |
| `Firmware.Firmware.HilProcessInit` | ftl/neoftl/hil/hil.c:108-148 | the loop with its early returns does exactly the init steps of the schedule |
| `Firmware.Firmware.HilRun` | ftl/neoftl/hil/hil.c:45-52 | the five sub-steps in their order do the HIL's part of a round |
| `Firmware.Firmware.AdvanceCounters` | ftl/neoftl/ftl/simple/ftl.c:77-97 | the nested ifs compute the mixed-radix successor or fail the assertion |
| `Firmware.Firmware.MapWrite` | ftl/neoftl/ftl/simple/ftl.c:66-104 | the loop gives block i of a write the (n + i)-th page of the log, updates exactly its table entries, and stops at the assertion exactly when the log runs out |
| `Firmware.Firmware.MapRead` | ftl/neoftl/ftl/simple/ftl.c:44-61 | the loop copies the table entries of the read into its buffers and into no others |
| `Firmware.Firmware.FtlProcessQ` | ftl/neoftl/ftl/simple/ftl.c:32-107 | the function does exactly the mapping step, and fails its assertion if and only if the next write would use up the log |
| `Firmware.Firmware.FilAddReq` | ftl/neoftl/fil/nand/fil.c:30-46 | one pooled request is appended to the list of the address's way |
| `Firmware.Firmware.AddReads` | ftl/neoftl/fil/nand/fil.c:62-76 | the read loop adds the requests of the mapped blocks and counts the others as done |
| `Firmware.Firmware.AddWrites` | ftl/neoftl/fil/nand/fil.c:86-103 | the write loop adds a program for each block, after an erase when it is page 0 |
| `Firmware.Firmware.FilProcessWait` | ftl/neoftl/fil/nand/fil.c:48-108 | the function does exactly the fan-out step; the unguarded push has room |
| `Firmware.Firmware.PassDone` | ftl/neoftl/fil/nand/fil.c:148-171 | a command whose last operation is done is pushed onto its completion queue, done_q being a ring with room |
| `Firmware.Firmware.FilProcessNand` | ftl/neoftl/fil/nand/fil.c:110-179 | the nested loops call the driver of each way for its first request, in order, and finish exactly the requests whose driver returns DONE; each call meets the driver's assertions, and both queue assertions hold |
| `Firmware.Firmware.RunToFil` | ftl/neoftl/target/main.c:19-40 | a round up to fil_run does what the schedule says, and fails if and only if the write to be mapped would use up the log |
| `Firmware.Firmware.Round` | ftl/neoftl/target/main.c:19-40 | hil_run, ftl_run and fil_run with the NAND drivers do exactly one round of pipeline and drivers together; it fails if and only if the write to be mapped would use up the log |
| `Firmware.Firmware.Run` | ftl/neoftl/target/main.c:42-53 | any number of rounds, whatever the host, the DMA engine and the NAND controllers do, follows the rounds of pipeline and drivers until the log is used up |
| `CmdQueue.CmdQueue.Empty` | ftl/neoftl/common/cmd_internal.h:70-73 | head equal to tail means no element |
| `CmdQueue.CmdQueue.Full` | ftl/neoftl/common/cmd_internal.h:74-77 | the full test means size - 1 elements |
| `CmdQueue.CmdQueue.GetHead` | ftl/neoftl/common/cmd_internal.h:78-81 | the head slot holds the oldest element |
| `CmdQueue.CmdQueue.PushTail` | ftl/neoftl/common/cmd_internal.h:82-87 | a push appends to a ring with room, and empties a full one |
| `CmdQueue.CmdQueue.PopHead` | ftl/neoftl/common/cmd_internal.h:88-92 | a pop removes the oldest element, and makes an empty ring read as full |
| `CmdQueue.PushWindow` | ftl/neoftl/common/cmd_internal.h:82-87 | writing the tail slot and moving the tail appends to the contents, across the wrap too |
| `CmdQueue.PopWindow` | ftl/neoftl/common/cmd_internal.h:88-92 | moving the head drops the first element, across the wrap too |
| `DmaPool.ListAddTail` | ftl/neoftl/util/list.h:19-36 | the pointer assignments append a node to a circular list |
| `DmaPool.ListDel` | ftl/neoftl/util/list.h:38-47 | the pointer assignments take a node out of a circular list |
| `DmaPool.ListEmpty` | ftl/neoftl/util/list.h:61-64 | a header pointing to itself means an empty list |
| `DmaPool.CutBehind` | ftl/neoftl/common/cmd_internal.c:156-167 | four pointer assignments split a circle behind its n-th node into two circles |
| `DmaPool.Visit` | ftl/neoftl/hil/hil.c:163-173 | following next from cmd->buf visits the ring in order |
| `DmaPool.Pool.constructor` | ftl/neoftl/common/cmd_internal.c:113-132 | dmabuf_init builds one circular list of all buffers and counts them |
| `DmaPool.Pool.Get` | ftl/neoftl/common/cmd_internal.c:134-194 | the first nblock buffers become a circular ring in order and the rest stays a well-formed list, also when everything is taken; with too few nothing changes |
| `DmaPool.Pool.CloseAll` | ftl/neoftl/common/cmd_internal.c:140-155 | the case that takes everything closes the nodes up without the header |
| `DmaPool.Pool.CloseFirst` | ftl/neoftl/common/cmd_internal.c:156-167 | the case that leaves some makes the first nblock nodes a ring of their own and keeps the rest a well-formed list |
| `DmaPool.Pool.Put` | ftl/neoftl/common/cmd_internal.c:196-221 | a ring is prepended to the pool in order and counted |
| `DmaPool.Pool.GetThenPut` | ftl/neoftl/common/cmd_internal.c:134-221 | get followed by put restores every link of the pool |
| `HostDma.DecideExact` | ftl/neoftl/hil/host_lld.c:412-446 | the partial-done decision is true exactly when the recorded position is complete, for records less than 2^40 transfers old |
| `HostDma.DecideAliases` | ftl/neoftl/hil/host_lld.c:412-446 | beyond that, a record 0 to 254 transfers behind modulo 2^40 is misjudged for some completed count |
| `HostDma.DecideCharacterised` | ftl/neoftl/hil/host_lld.c:412-481 | the decision is right for every possible completed count if and only if the record is less than 2^40 old or at least 255 behind modulo 2^40 |
| `HostDma.OverflowCompare` | ftl/neoftl/hil/host_lld.c:412-446 | the two overflow comparisons tell the number of wraps between the positions modulo 2^32 |
| `HostDma.AdvanceBytes` | ftl/neoftl/hil/host_lld.c:348-353 | tail byte, overflow word and count word keep telling the total issued |
| `HostDma.ByteCompare` | ftl/neoftl/hil/host_lld.c:331-333 | equal bytes mean equal counts, and one short of a wrap means 255 outstanding |
| `HostDma.Channel.Advance` | ftl/neoftl/hil/host_lld.c:348-353 | tail and OverFlowCnt stay the remainder and, modulo 2^32, the quotient by 256 of the transfers issued |
| `HostDma.Engine.SetAutoDma` | ftl/neoftl/hil/host_lld.c:324-386 | waiting for room keeps at most 255 transfers between the cached head and the tail |
| `HostDma.Engine.CheckAutoDone` | ftl/neoftl/hil/host_lld.c:400-410 | the polling loop ends only when every issued transfer is complete, even from a stale cached head |
| `HostDma.Engine.CheckPartialDone` | ftl/neoftl/hil/host_lld.c:412-481 | after the refresh the answer is whether the recorded position is complete |
| `NandWay.CallKeeps` | ftl/neoftl/fil/nand/fil_nand.c:168-660 | one call keeps step cell, retry count and commands issued together, issues at most one command, and finishes only whole scripts |
| `NandWay.FrontKeeps` | ftl/neoftl/fil/nand/fil_nand.c:191-243 | opening command and status command are issued only in a call that saw the way take a command |
| `NandWay.PassesKeep` | ftl/neoftl/fil/nand/fil_nand.c:168-660 | a synchronous call, however many passes it makes, keeps step cell, retry count and commands together and returns only when it has issued a whole script |
| `NandWay.PassesStop` | ftl/neoftl/fil/nand/fil_nand.c:181-297 | the pass that finishes the operation is the last one of a synchronous call |
| `NandWay.RawRead` | ftl/neoftl/fil/nand/fil_nand.c:442-488 | with ECC off a read goes as with ECC on when every check passes, except that the page is transferred raw |
| `NandWay.EveryRun` | ftl/neoftl/fil/nand/fil_nand.c:128-154 | in every run each call finds the shared cell at a step of its own protocol and the way invariant holds |
| `NandWay.WayInvariant` | ftl/neoftl/fil/nand/fil_nand.c:70-79 | the cell is in use only for the first request of the list, retries are counted only for a read and at most five, at most six triggers are issued, and the device trace is whole scripts in order plus the one in progress |
| `NandWay.EraseStallWords` | ftl/neoftl/fil/nand/fil_nand.c:268-275 | the erase neither finishes nor asks again exactly when the word read again has bit 6 or 7 and the word read first does not have both together with bit 0 |
| `NandWay.EraseStalls` | ftl/neoftl/fil/nand/fil_nand.c:251-283 | a pass that checks the status word changes nothing if and only if it sees such words |
| `NandWay.EraseHangs` | ftl/neoftl/fil/nand/fil_nand.c:181-297 | a synchronous erase is still at the status word it checks, however many passes it has made, if and only if it has seen only such words since |
| `NandWay.Driver.ProcessErase` | ftl/neoftl/fil/nand/fil_nand.c:168-300 | the loop and the switch with its fall-throughs make exactly the passes of the erase table, one or, with bSync, as many as it takes |
| `NandWay.Driver.ProcessProgram` | ftl/neoftl/fil/nand/fil_nand.c:538-660 | the loop and the switch with its fall-throughs make exactly the passes of the program table, with and without bSync |
| `NandWay.Driver.ProcessRead` | ftl/neoftl/fil/nand/fil_nand.c:315-524 | the loop and the switch with its fall-throughs and retries make exactly the passes of the read table, with and without ECC and bSync |
| `NandWay.Driver.Process` | ftl/neoftl/fil/nand/fil.c:128-141 | the request type selects the protocol |
| `NandWay.Driver.Look` | ftl/neoftl/fil/nand/fil.c:120-141 | calling the driver for the first request of a list moves the way on as its history says |
| `NandTraffic.CallsAreLegal` | ftl/neoftl/fil/nand/fil.c:120-141 | in step with the pipeline, a way's driver can be called at any moment: its operation is in range, the shared cell is at a step of that operation's protocol, and when it returns DONE the operation fits the medium |
| `NandTraffic.NextKeeps` | ftl/neoftl/fil/nand/fil.c:110-179 | every pipeline step and every driver call keeps the lists of the FIL and of the drivers the same and the finished erases and programs on the script |
| `NandTraffic.EveryCoupledRun` | ftl/neoftl/fil/nand/fil.c:110-179 | pipeline and drivers stay in step in every interleaving, whatever the drivers get to see |
| `NandTraffic.ControllerFollowsScript` | ftl/neoftl/fil/nand/fil_nand.c:168-660 | in every run the erase and program commands a way's controller has been sent are Erase(50), Program(50,0), Program(50,1), ..., none missing, repeated or out of order, and all but perhaps the last are finished |
| `NandTraffic.IsPipelineRun` | ftl/neoftl/fil/nand/fil.c:110-179 | a run of pipeline and drivers is a run of the pipeline, so everything proved of those holds with the drivers in place |
| `NandOutcomes.CommandsOf` | ftl/neoftl/fil/nand/fil_nand.c:209-577 | an erase is sent for row 256*block, a program and a read's trigger and transfer for row 256*block + page (0x200000 further on from block 600), a program and a transfer with the operation's own buffer |
| `NandOutcomes.FrontLook` | ftl/neoftl/fil/nand/fil_nand.c:191-243 | opening and status command are sent when the controller is idle and the way ready, and only then |
| `NandOutcomes.EraseLook` | ftl/neoftl/fil/nand/fil_nand.c:251-283 | an erase finishes on a word with bits 0, 6 and 7, asks again when the word read again has neither of bits 6 and 7, and looks on otherwise |
| `NandOutcomes.ProgramLook` | ftl/neoftl/fil/nand/fil_nand.c:619-650 | a program finishes on a word with bits 0, 6 and 7, asks for the status again on one with bit 0 but not both others, and looks on otherwise |
| `NandOutcomes.ReadStatusLook` | ftl/neoftl/fil/nand/fil_nand.c:399-453 | a read that sees bits 0, 6 and 7 and neither of bits 1 and 2 goes on to transfer its page into its buffer, one that sees bit 1 or 2 counts a failed attempt, one that sees no complete report asks again |
| `NandOutcomes.TransferLook` | ftl/neoftl/fil/nand/fil_nand.c:455-500 | a complete transfer ends the read when bits 24 and 28 of the first error word and all of the second are set, and counts a failed attempt otherwise |
| `NandOutcomes.EveryReadEnds` | ftl/neoftl/fil/nand/fil_nand.c:315-524 | in every run a finished read either saw a complete and corrected transfer of its page into its buffer, its last command, or has seen six failed statuses or transfers |
| `NandOutcomes.ReadEnds` | ftl/neoftl/fil/nand/fil_nand.c:403-417 | whatever a finished read has seen, the last look was a corrected transfer or the sixth failure |
| `NandMedium.RowsHoldPages` | ftl/neoftl/fil/nand/fil_nand.c:815-829 | with media that do what the commands say, row 256*b + p of a way holds what the pipeline takes page p of block b to hold, in every run of pipeline and drivers |
| `NandMedium.ReadLoads` | ftl/neoftl/fil/nand/fil_nand.c:442-490 | a read that sees its transfer complete and corrected ends there, and its buffer has been loaded with row 256*block + page, which is the block the pipeline says it has read |
| `NandMedium.ProgramsAreFresh` | ftl/neoftl/fil/nand/fil_nand.c:573-578 | every program command goes to a row erased and not programmed since, with the buffer of the block write that was given the page, which holds that write's block then |
| `NandMedium.DiskIsOnMedia` | ftl/neoftl/ftl/simple/ftl.c:44-105 | once nothing is listed, the row that the table entry of any host address leads to, on the way it names, holds the block the host last wrote there |
| `NandMedium.EveryBenchRun` | ftl/neoftl/fil/nand/fil_nand.c:168-660 | commands sent, rows held, page fetched and buffer loaded agree with the pipeline in every interleaving, from media of any contents |
| `DrivenMedia.RoundsHoldPages` | ftl/neoftl/target/main.c:19-40 | the same for the main loop: after any rounds row 256*b + p of a way holds what the pipeline takes page p of block b to hold |
| `DrivenMedia.RoundsHoldDisk` | ftl/neoftl/target/main.c:19-40 | and once nothing is listed after some round the media hold the host's disk, block by block where the table says |
| `DrivenRounds.CoupledRoundKeeps` | ftl/neoftl/target/main.c:19-40 | a round in which the drivers decide what is done keeps pipeline and drivers in step |
| `DrivenRounds.AreRounds` | ftl/neoftl/target/main.c:19-40 | rounds with the drivers are, for the pipeline, rounds of the schedule with the answers the drivers gave |
| `DrivenRounds.RoundsSendInOrder` | ftl/neoftl/target/main.c:19-40 | after any number of rounds of the main loop the commands sent to every way's controller are the beginning of its script |
| `RamDiskSafety.StepKeeps` | ftl/polling_ram/ftl/ramftl/ram.c:64-119 | every atomic step of either thread keeps the invariant |
| `RamDiskSafety.EveryRun` | ftl/polling_ram/ftl/ramftl/ram.c:88-119 | the invariant holds in every interleaving |
| `RamDiskSafety.CountingIsExact` | ftl/polling_ram/ftl/ramftl/ram.c:113-115 | done, uncounted ring entries and unissued blocks of a live command add up to nblock |
| `RamDiskSafety.NoUseAfterFree` | ftl/polling_ram/ftl/ramftl/ram.c:224-253 | no entry still to be counted refers to a freed command, and the copying thread always finds its command live |
| `RamDiskSafety.MainSafe` | ftl/polling_ram/ftl/ramftl/ram.c:161-253 | the main thread's next step is always possible on live memory, except that it waits for room in the ring or has exited |
| `RamDiskSafety.ReadsSeeEarlierWrites` | ftl/polling_ram/ftl/ramftl/ram.c:161-222 | each block the host receives is what the disk held, at the disk block the copy was issued for, after exactly the writes issued before |
| `RamDiskSafety.ReplayIsLastWrite` | ftl/polling_ram/ftl/ramftl/ram.c:106-109 | a block of the disk holds the data of the last write issued to it, or its initial contents |
| `RamDiskSafety.CopyDisk` | ftl/polling_ram/ftl/ramftl/ram.c:104-109 | copying an entry brings the disk to the state after the writes up to it |
| `RamDiskSafety.SendSent` | ftl/polling_ram/ftl/ramftl/ram.c:244-248 | each block handed to the host by ftl_run is already copied and holds what the disk held when its turn came |
| `RamDiskHost.HostReads` | ftl/polling_ram/ftl/ramftl/ram.c:161-222 | block i that the host receives for a read of lba is what its earlier requests have left at (lba + i) mod 2^20, whatever the threads do when: the block last written there, or the initial contents |
| `RamDiskHost.HostDiskIsLastWrite` | ftl/polling_ram/ftl/ramftl/ram.c:186-222 | the disk the requests leave, carried out one after the other, holds at every address the block of the last request that wrote it |
| `RamDiskHost.InRangeExact` | ftl/polling_ram/ftl/ramftl/ram.c:121-128 | when requests stay below 2^20 blocks the address is the LBA itself |
| `RamDiskHost.Aliased` | ftl/polling_ram/ftl/ramftl/ram.c:121-128 | otherwise it is not: lba * 4096 wraps in 32 bits, so a write to LBA a + 2^20 overwrites block a |
| `RamDiskHost.FreedReadIsDelivered` | ftl/polling_ram/ftl/ramftl/ram.c:244-252 | when a read is freed each of its nblock blocks has been handed to the host, with what the earlier requests have left at its address |
| `RamDiskHost.GoneIsDone` | ftl/polling_ram/ftl/ramftl/ram.c:224-253 | every block of a request that no live command carries has been copied, and for a read handed to the host with the block last written before |
| `RamDiskHost.QuietDisk` | ftl/polling_ram/ftl/ramftl/ram.c:88-119 | with every command freed the disk is what the requests, one after the other, leave |
| `RamDiskHost.ExitsOutside` | ftl/polling_ram/ftl/ramftl/ram.c:121-128 | the main thread exits at a block exactly when its address mod 2^20 is 16384 or more |
| `RamDiskHost.EveryHostRun` | ftl/polling_ram/ftl/ramftl/ram.c:161-253 | what is recorded of requests, issued blocks and blocks sent agrees with the requests of the run in every interleaving |
| `RamDiskProgress.RoomWillCome` | ftl/polling_ram/ftl/ramftl/ram.c:64-66 | when the main thread spins for room in the ring, the copying thread has a step to take |
| `RamDiskProgress.NeverStuck` | ftl/polling_ram/ftl/ramftl/ram.c:88-119 | while a command is live and exit has not been called, some step of one of the threads is possible |
| `RamDiskProgress.RankMoves` | ftl/polling_ram/ftl/ramftl/ram.c:64-253 | every step of either thread lowers a rank, except that the start of a command raises it by what the command will cost |
| `RamDiskProgress.WorkIsBounded` | ftl/polling_ram/ftl/ramftl/ram.c:64-253 | in every interleaving the steps taken and the rank left are together no more than the commands started cost |
| `RamDiskProgress.Drains` | ftl/polling_ram/ftl/ramftl/ram.c:224-253 | once no command is started any more both threads come to rest within the rank, and then every command has been counted, retired and freed, unless exit was called |
| `RamDiskProgress.CopierCatchesUp` | ftl/polling_ram/ftl/ramftl/ram.c:106-118 | from any state the copying thread alone empties the ring in an exactly known number of steps, and then every command issued in full is counted in full |
| `Tokens.RunAppend` | ssd/wordcount_isc/wordcount_ssd.cc:73-113 | splitting may stop and go on at any point of the file |
| `Tokens.SplitIsExact` | ssd/wordcount_isc/wordcount_ssd.cc:86-112 | the tokens are exactly the longest delimiter-free stretches ended by a delimiter, in ascending order |
| `Tokens.WordsAndLines` | ssd/wordcount_isc/wordcount_ssd.cc:63-67 | spelled out: words are ended by a blank, a newline or a full stop, lines by a newline |
| `Tokens.PieceFits` | ssd/wordcount_isc/wordcount_ssd.cc:54-59 | every piece of a well-formed file meets what process needs: it stays inside last and inside the piece |
| `Tokens.NothingPending` | ssd/wordcount_isc/wordcount_ssd.cc:86-112 | a file that ends in a delimiter leaves nothing in the carry buffer |
| `Tokens.FinishCarry` | ssd/wordcount_isc/wordcount_ssd.cc:80-88 | the rest of the pending token is appended to the carry buffer without leaving it, and what is read from it is the whole token |
| `Tokens.KeepCarry` | ssd/wordcount_isc/wordcount_ssd.cc:91-97 | the unfinished token is copied into the carry buffer for the next call |
| `WordCount.TallyCounts` | ssd/wordcount_isc/wordcount_ssd.cc:68-72 | the map counts each word as often as it occurs |
| `WordCount.WordCounter.PutWord` | ssd/wordcount_isc/wordcount_ssd.cc:68-72 | inserting or incrementing counts one more occurrence |
| `WordCount.WordCounter.FinishPending` | ssd/wordcount_isc/wordcount_ssd.cc:80-88 | the carried word is completed from the payload and counted, inside last[64] |
| `WordCount.WordCounter.ScanRest` | ssd/wordcount_isc/wordcount_ssd.cc:89-112 | the loop counts every word completed in the payload |
| `WordCount.WordCounter.Process` | ssd/wordcount_isc/wordcount_ssd.cc:73-113 | one call continues the scan of the file by the payload, wherever in a word it begins or ends |
| `Grep.FileMatches` | ssd/grep_isc/grep_ssd_single.cc:69-73 | the offsets recorded for a file are exactly the starts of its matching lines, ascending |
| `Grep.MatchesAscend` | ssd/grep_isc/grep_ssd_single.cc:69-73 | offsets are recorded in ascending order |
| `Grep.Grepper.Process` | ssd/grep_isc/grep_ssd_single.cc:74-117 | one call continues the scan by the payload, with the right absolute offsets across calls |
| `Grep.Grepper.FinishPending` | ssd/grep_isc/grep_ssd_single.cc:82-90 | the carried line is checked under the offset where it began, inside last[400] |
| `IscStream.Device.IscCheckDone` | ssd/lib/isc_ssd.h:47-54 | a done slot becomes idle with the requested sectors in its buffers |
| `IscStream.Device.IscReadRequest` | ssd/lib/isc_ssd.c:27-36 | a request is accepted exactly when the slot is idle |
| `IscStream.Device.Await` | ssd/wordcount_isc/wordcount_ssd.cc:39-39 | polling ends with the slot served, whatever the firmware does meanwhile, and the other slot untouched if it was the program's |
| `IscStream.Device.SplitChunk` | ssd/wordcount_isc/wordcount_ssd.cc:54-59 | the sectors of a chunk are processed in order, all but the last in full, and the firmware never touches them |
| `IscStream.Device.ReadThrough` | ssd/wordcount_isc/wordcount_ssd_single.cc:30-57 | the loop of the single-slot programs: chunk by chunk, every request accepted, the characters scanned are the file's |
| `IscStream.Device.NextChunk` | ssd/wordcount_isc/wordcount_ssd.cc:36-59 | the loop body: while one slot is processed the next chunk is requested in the other, and that request is accepted |
| `IscStream.Device.WordCountMain` | ssd/wordcount_isc/wordcount_ssd.cc:30-60 | double-buffered: no request is refused, the characters scanned are the file's, and the counts are those of the whole file |
| `IscStream.Device.WordCountSingleMain` | ssd/wordcount_isc/wordcount_ssd_single.cc:30-57 | single-buffered: no request is refused, the same characters scanned and the same counts |
| `IscStream.Device.GrepMain` | ssd/grep_isc/grep_ssd_single.cc:33-60 | no request is refused and the recorded offsets are those of the whole file |
| `IscStream.PieceOfFile` | ssd/lib/isc_ssd.h:42-59 | byte k of the stream is byte k mod 4096 of sector k / 4096 from the start LBA |

## Left out

- Theorems.ReadsReturnLastWrite: speaks of blocks that have been written; a read of an unmapped block returns whatever its buffer held.
- Schedule.EveryRound: the build with FTL_MULTI_THREAD runs fil_run in a thread of its own; the bounds and the ordering are not claimed there.
- NandWay.EraseStalls: liveness of a single erase is not claimed, it can poll one status word forever; EraseHangs says when.
- NAND_AllBlockErase and NAND_Issue*, which nothing in the pipeline calls, and the sleeps of the NAND driver.
- Firmware.Firmware.Round: done_q is a ring; the other queues are sequences with a capacity, and rings of DMA buffers are sequences of buffers. That all rings behave so is proved in CmdQueue and DmaPool.
- RamDiskSafety.EveryRun: the two threads are a state machine of atomic steps under sequential consistency, not methods of a class; memcpy is one step, because the invariant lets no other thread touch the blocks it copies.
- IscStream.Device.GrepMain: res grows as needed; in the C program res and TARGET have to be set up by code that is not there.
- mmap, /dev/mem, register layouts and MMIO: replaced by environment steps.
- NVMe admin commands, flush completions, identify data and the writes to controller registers: they touch none of the pipeline's variables.
- ftl/neoftl/ftl/passthru and ftl/neoftl/fil/ram: their address fields are too narrow for the disk they claim.
- ftl/polling_ram/ftl/ramftl/mempool.c: its buffers can overlap as written; the RAM disk model assumes they do not.
- Words or lines without a final delimiter, which the programs never flush; and isc_write_request, print_result and the host-side tools.
- The direct (non-auto) DMA counters, which nothing in the pipeline uses.
