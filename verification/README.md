# Verification of the memory simulator and the accelerator on top of it

A Dafny model of the cycle-level DRAM simulator (dramsim3), of the lock-free queue its thread pool ships, of the multi-stack
memory interface and accelerator cores that use it (multi_anna), and of the thermal solver, with proofs of what they keep over
every run. `dafny verify dfyconfig.toml` checks everything.

The stateful components mostly appear twice. A specification on values says what a step does to the whole state, and lemmas
prove what every run of it keeps. A class with the program's fields and loops is proved against it. The bounded queue is a step
system only, since its point is the interleaving of atomic steps.

| files | what they hold |
|---|---|
| Commands, Timing, Channel | commands, delay tables, and the state of a channel: banks, activation windows, refresh list |
| ChannelHistory, ChannelSafety | the incremental timing table against the whole command history; row buffer; activation windows |
| TimingRules | the spacing rules in the configuration's parameters; every answer of a channel by its history; the data bus |
| ChannelState | the channel's loops as a class |
| Address | bit-field address mapping in any field order; the stack interleave |
| Queueing | the controller: transaction queues, command queues, refresh counter, dual-command cycle |
| ControllerSafety, ControllerRuns | the controller's invariant, conservation and ordering over all runs |
| Completion, ControllerPolicy | over all runs: when transactions complete; page policy, row hits, bounds, draining, blocking |
| DualIssue, DualWitness | exactly when dual-command mode loses a command, and that it stays lost; a run that loses one |
| RefreshProgress, Fairness | refresh isolation and deadline; round robin; the staggered refresh counter |
| RefreshRuns | refresh requests over whole runs: their schedule, and that they are served in order |
| Controller | command queue and controller as classes |
| Mpmc | the bounded queue as interleaved atomic steps |
| Counting, MemoryNet, MemoryRuns, MemoryPaths, MemoryInterface | requests and responses between readers, switch and stacks; runs; the way each takes; classes |
| HmcCube, HmcPace, Hmc | the crossbar of the memory cube: conservation, bandwidth, arbitration, two clocks; the class |
| ThermalMatrix, ThermalAssembly, ThermalSolver, ThermalPrinciple, ThermalBalance | matrix, assembly loops, stepping loop, comparison and maximum principles, conservation of heat |
| AnnaWork, AnnaFetch, AnnaCore | work partition and canonical batch order; fetch and codebook modules; the core's pipeline |

## Reading the results

- A *legal* history is one in which each command was the channel's answer to some request at its own clock, clocks never going
  back. `ControllerRuns.EveryRunIsOk` shows that the command trace of every controller run is legal, so everything proved of
  legal histories holds of every run.
- Exits (`AbruptExit`, `exit(1)`) are the `None` and `Abort` results of the specification. They are shown unreachable, not
  assumed away.
- Times are naturals; adding a negative delay that would go below zero wraps at 2^64 as in the program (`Timing.Later`).
  Overflow at the top of 64 bits is not modelled.
- Three promises do not hold as they stand, and each has its exact condition:
  - Dual-command mode drops a column command that its second search finds after a column command. A cycle does so if and only
    if, before it issues anything, the condition `DualIssue.DropsNow` holds of configuration, queues and tables
    (`TickLosesIff`); it needs two column commands with no delay between them (`DropNeedsNoDelay`). What is dropped is never
    issued again (`LostForever`). `DualWitness` gives the run, for a family of configurations whose write-to-read delay across
    ranks is not positive (dramsim3/src/timing.cc:26-28), and a member of it (`DualSafeIsNeeded`). Over runs, nothing is lost
    if no two addresses have column commands with no delay between them (`NoHazardNoLoss`), in particular under `DualSafe`: in
    dual-command mode the column-to-column delays are positive. Only the order of writes behind earlier reads takes `DualSafe`.
  - The transient thermal solver puts the power of cell (i, j) at the transposed index; it feeds the nodes the steady solver
    feeds if and only if the grid is a single line (`SlotsAgreeIff`).
  - A core with an empty work list never sets its Finished flag, so the accelerator's run ends only if every core has work
    (`FinishedMeansDone`). That is the case if and only if there are at least as many list entries as cores (`Partition`,
    `SomeCoreNeverFinishes`).
- The stack interleave names eight stacks, whatever number the interface was built with: every address has its stack if and
  only if there are at least eight (`EveryAddressRoutes`), and with fewer some run indexes a missing one (`FewStacksFail`).

## What stands for the outside

- A memory stack behind the interface, and a vault of the cube, is the collection of addresses it has accepted and not answered;
  which it answers and when it accepts are parameters, so every behaviour is covered. The controller results above show that a
  controller behaves this way: every accepted transaction is answered at most once, and owed until then.
- A reader inside the fetch and codebook modules is seen as ready or busy; `MemoryInterfaceImpl.MemoryReader` shows what ready
  means. The similarity computation is ready when a parameter says so.
- The queue's steps interleave with sequentially consistent memory; positions are unbounded, so that `pos & mask` is
  `pos % size`; a compare-and-exchange may fail without cause.
- Thermal resistances, capacities and temperatures are reals, the resistances arbitrary positive ones.

## Model

| member | source | states |
|---|---|---|
| `ChannelHistory.ScanMeaning` | dramsim3/src/channel_state.cc:76-106 | The answer to a rank refresh names the refresh exactly when every bank of the rank is closed and past its refresh time, otherwise a precharge of an open, ready bank of that rank, otherwise nothing; it never reaches the exit. |
| `ChannelHistory.AnswerIsSound` | dramsim3/src/channel_state.cc:76-115 | Whatever request is asked, a command the channel answers with satisfies the state, timing and activation-window conditions of every bank it touches. |
| `ChannelHistory.IssueKeepsOk` | dramsim3/src/channel_state.cc:117-138 | A sound command never reaches an exit of the state update and leaves a well-formed channel. |
| `ChannelHistory.LegalNeverExits` | dramsim3/src/bankstate.cc:96-165 | In every history whose commands were each answered by the channel at their own clock, no state update reaches an exit. |
| `ChannelHistory.LegalIsSound` | dramsim3/src/channel_state.cc:76-138 | Every command of such a history was sound in the state its predecessors left. |
| `ChannelHistory.RaiseAllIsMax` | dramsim3/src/bankstate.cc:167-171 | Applying a list of delays to a table leaves, for each command kind, the maximum of the old entry and every time the list demands. |
| `ChannelHistory.IssueRaises` | dramsim3/src/channel_state.cc:140-186 | Issuing a command raises each bank by exactly the one delay list that applies to it: same bank, bankgroup, rank or other rank. |
| `ChannelHistory.HistoryMax` | dramsim3/src/channel_state.cc:140-263 | The reference value: the least time no earlier than any demand of the whole history, and reached by one of them unless it is zero. |
| `ChannelHistory.TableIsHistoryMax` | dramsim3/src/channel_state.cc:140-263 | After every legal history, each entry of each bank's incremental table equals the maximum over the whole history of issue time plus applicable delay. |
| `ChannelSafety.OpenRowIsHistory` | dramsim3/src/bankstate.cc:96-165 | A bank is open at a row exactly when the history has an activation of that row with nothing that closes the bank since. |
| `ChannelSafety.ColumnHitsOpenRow` | dramsim3/src/bankstate.cc:22-94 | Every read or write of a legal history targets the row opened by the latest activation of its bank, not closed since. |
| `ChannelSafety.RefreshMeetsClosedBanks` | dramsim3/src/channel_state.cc:76-106 | A refresh is never issued between an activation of one of its banks and the command that closes it. |
| `ChannelSafety.WindowSpan` | dramsim3/src/channel_state.cc:282-314 | For any limit and span: a list that drops at most one expired entry per addition still keeps any limit + 1 consecutive admitted times at least the span apart. |
| `ChannelSafety.WindowsTrackActs` | dramsim3/src/channel_state.cc:271-295 | The two activation windows of a rank are those of its activations in the history. |
| `ChannelSafety.FiveActivationsSpan` | dramsim3/src/channel_state.cc:297-304 | Any five consecutive activations of a rank span at least tFAW in every legal history. |
| `ChannelSafety.ThirtyThreeActivationsSpan` | dramsim3/src/channel_state.cc:306-314 | With GDDR, any 33 consecutive activations of a rank span at least t32AW. |
| `TimingRules.TablesAreRules` | dramsim3/src/timing.cc:13-264 | For every two commands, every bank and every configuration, the tables hold exactly the delay that the parameters give for that pair and scope, and none where the pair is unconstrained. |
| `TimingRules.RulesAreKept` | dramsim3/src/timing.cc:77-264 | In every legal history any two commands are as far apart as the parameters demand of the pair: write recovery, tRP, tRFC, tRAS + tRP and all others, per scope. |
| `TimingRules.EntryIsRules` | dramsim3/src/channel_state.cc:140-263 | A bank holds a command back exactly as long as some rule does: an entry of the table is neither earlier nor later than the latest rule of the whole history. |
| `TimingRules.WindowsIff` | dramsim3/src/channel_state.cc:297-314 | A rank may take one more activation exactly if fewer than four have gone out within tFAW, and on graphics memory fewer than 32 within t32AW. |
| `TimingRules.ColumnAnswer` | dramsim3/src/bankstate.cc:22-94 | The answer to a read or write request, by the history alone: itself exactly when its row is open and its rules are over, an activation exactly when no row is open, its rules are over and the rank has room, a precharge exactly when another row is open and its rules are over, else nothing. |
| `TimingRules.BankRefreshAnswer` | dramsim3/src/bankstate.cc:22-94 | The same for a request to refresh one bank. |
| `TimingRules.RankRefreshAnswer` | dramsim3/src/channel_state.cc:76-106 | The same for a request to refresh a rank: the refresh exactly when every bank is closed and past its rules, a precharge exactly when some open bank may be closed, and then of the first such bank. |
| `TimingRules.RowHitsAreHistory` | dramsim3/src/bankstate.cc:96-165 | The row-hit count of a bank is the number of reads and writes its open row has served since it was opened. |
| `TimingRules.BurstsNeverOverlap` | dramsim3/src/timing.cc:13-31 | With non-negative parameters, no two data bursts of a legal history meet on the bus, and between ranks, except from write to write, it rests for the switching time. |
| `ChannelStateImpl.ChannelState.IsAllBankIdleInRank` | dramsim3/src/channel_state.cc:24-33 | The loop answers whether every bank of the rank is closed. |
| `ChannelStateImpl.ChannelState.RankNeedRefresh` | dramsim3/src/channel_state.cc:61-74 | A request is appended, or the first request of the rank and no other is removed; the rest of the channel is unchanged. |
| `ChannelStateImpl.ChannelState.BankNeedRefresh` | dramsim3/src/channel_state.cc:44-59 | The same for one bank. |
| `ChannelStateImpl.ChannelState.GetReadyCommand` | dramsim3/src/channel_state.cc:76-115 | The nested scan answers what the channel specification answers, of which ColumnAnswer, BankRefreshAnswer and RankRefreshAnswer give the exact meaning. |
| `ChannelStateImpl.ChannelState.UpdateOtherBanksSameBankgroupTiming` | dramsim3/src/channel_state.cc:199-212 | Exactly the other banks of the bankgroup are raised by the list. |
| `ChannelStateImpl.ChannelState.UpdateOtherBankgroupsSameRankTiming` | dramsim3/src/channel_state.cc:214-229 | Exactly the banks of the rank's other bankgroups are raised. |
| `ChannelStateImpl.ChannelState.UpdateOtherRanksTiming` | dramsim3/src/channel_state.cc:231-248 | Exactly the banks of the other ranks are raised. |
| `ChannelStateImpl.ChannelState.UpdateSameRankTiming` | dramsim3/src/channel_state.cc:250-263 | Exactly the banks of the rank are raised. |
| `ChannelStateImpl.ChannelState.UpdateActivationTimes` | dramsim3/src/channel_state.cc:282-295 | The windows take the new time and lose at most one expired entry each. |
| `ChannelStateImpl.ChannelState.DoUpdateTiming` | dramsim3/src/channel_state.cc:140-186 | The five spread loops together perform the timing update whose meaning, in parameters and over histories, is EntryIsRules. |
| `ChannelStateImpl.ChannelState.DoUpdateState` | dramsim3/src/channel_state.cc:117-138 | The loops perform the state update, or report the exit where it has none. |
| `ChannelStateImpl.ChannelState.UpdateTimingAndStates` | dramsim3/src/channel_state.cc:265-269 | Both updates together are one step of the history. |
| `Address.LogBase2` | dramsim3/src/configuration.cc:347-366 | The counting loop yields the greatest i with 2^i at most n, 0 below 2. |
| `Address.DecodePack` | dramsim3/src/configuration.cc:33-42 | For every order and widths of the six fields, slicing a packed address gives each field back. |
| `Address.PackDecode` | dramsim3/src/configuration.cc:33-42 | Packing the slices of an in-range address gives the address back. |
| `Address.FieldsDisjoint` | dramsim3/src/configuration.cc:376-404 | The bit ranges of two different fields never overlap, whatever the order. |
| `Address.FieldPositions` | dramsim3/src/configuration.cc:376-404 | The loop that pops field names from the back assigns each field the sum of the widths after it. |
| `Address.SetAddressMapping` | dramsim3/src/configuration.cc:347-404 | A mapping string is accepted exactly when it names each of the six fields; the layout then partitions the bits above the request size. |
| `Address.MappingOfAddress` | dramsim3/src/configuration.cc:33-42 | Decoding the address built from any coordinates that fit their fields gives those coordinates back. |
| `Address.AddressOfMapping` | dramsim3/src/configuration.cc:33-42 | Every request-aligned address in range is rebuilt from its mapping, so decoding is a bijection. |
| `Address.CoordinateIs` | dramsim3/src/configuration.cc:33-42 | Each coordinate is the address divided by a power of two, modulo the size of its field. |
| `Address.AddressesAreCapacity` | dramsim3/src/configuration.cc:347-361 | With sizes that are powers of two, the field widths are their logarithms and an address has exactly the bits that number the bytes of the memory. |
| `Address.DefaultFields` | dramsim3/src/configuration.cc:222-222 | The default mapping string names channel, row, bank, bankgroup, rank and column, in that order. |
| `Address.DefaultLayout` | dramsim3/src/configuration.cc:376-396 | Its columns are the lowest bits, then ranks, bankgroups, banks and rows, and channels the highest. |
| `Address.MappingInRange` | dramsim3/src/dram_system.cc:35-38 | Every address maps to coordinates of a bank that exists, powers of two or not, and GetChannel agrees with the mapping. |
| `Address.StackRoundTrip` | multi_anna/utils.hpp:179-192 | For all l <= r, stack number and inner address give the original address back, so the map is injective. |
| `Address.StackOnto` | multi_anna/utils.hpp:179-192 | Every stack number that fits and every inner address is reached, by the explicit inverse. |
| `Address.StackMapIs` | multi_anna/utils.hpp:179-192 | By arithmetic: stacks take turns every 2^l bytes, and within a stack the blocks close up. |
| `Queueing.IndexInRange` | dramsim3/src/command_queue.cc:164-171 | Every existing bank has a queue, and with a queue per bank those of a rank are contiguous. |
| `ControllerSafety.SearchIsOk` | dramsim3/src/command_queue.cc:36-54 | The round-robin search answers with a sound command chosen from an unblocked queue and takes out exactly that entry; it never exits. |
| `ControllerSafety.ChosenWriteIsAlone` | dramsim3/src/command_queue.cc:178-196 | A write the search would issue has no pending read of its address. |
| `ControllerSafety.EntryIsPending` | dramsim3/src/controller.cc:230-263 | Every queued command has a pending transaction, so the "not in queue" exits are unreachable. |
| `ControllerSafety.AddKeepsInv` | dramsim3/src/controller.cc:161-195 | Accepting a transaction keeps the whole invariant: one queue entry per pending address and direction, order, modes, trace. |
| `ControllerSafety.IssueSearched` | dramsim3/src/controller.cc:230-263 | Issuing what the search found never exits and keeps the whole invariant. |
| `ControllerSafety.IssueRefreshWork` | dramsim3/src/command_queue.cc:56-75 | Issuing refresh work never exits and keeps the whole invariant. |
| `ControllerRuns.ScheduleKeepsBooks` | dramsim3/src/controller.cc:197-228 | Moving a transaction to its command queue keeps balance, per-address order and 0 <= draining <= write buffer length. |
| `ControllerRuns.ColumnsAreHeld` | dramsim3/src/timing.cc:13-31 | If all column-to-column delays are positive, after a column command no column command is ready in the same cycle. |
| `ControllerRuns.IssueStageKeepsInv` | dramsim3/src/controller.cc:69-93 | In every configuration a cycle's issues, one or two, never exit and keep the invariant; if no column delay is zero or less in dual-command mode, each write issued found no pending read of its address. |
| `ControllerRuns.TickKeepsInv` | dramsim3/src/controller.cc:65-149 | The same for a whole cycle, in unified and split mode. |
| `ControllerRuns.TickKeepsOwed` | dramsim3/src/controller.cc:65-149 | A cycle neither loses nor invents an owed completion, for any address and direction. |
| `ControllerRuns.AddOwesOne` | dramsim3/src/controller.cc:161-195 | An accepted transaction adds exactly one owed completion of its address and direction. |
| `ControllerRuns.ReturnPaysOne` | dramsim3/src/controller.cc:45-63 | A returned transaction removes exactly one, and not before its completion time. |
| `ControllerRuns.EveryRunIsOk` | dramsim3/src/controller.cc:65-263 | Every run of offers, cycles and collections, of any length and in every configuration: no exit is reached, accepted = owed + returned for every address and direction, nothing waits that is not owed, what is owed waits unless dual-command mode has a column delay of zero or less, and the trace is a legal history. |
| `ControllerPolicy.EveryRunKeepsRules` | dramsim3/src/timing.cc:77-264 | In every run any two issued commands are as far apart as the parameters demand. |
| `ControllerPolicy.EveryRunSharesNoBurst` | dramsim3/src/timing.cc:13-31 | In every run with non-negative parameters no two bursts meet on the data bus. |
| `Completion.EveryAnswerIsDated` | dramsim3/src/controller.cc:161-252 | In every run: a write is answered one cycle after it came; a read is answered as often as a pending write held its data, and beyond that only by the first read command of its address since it came, AL + CL + burst cycles after that command. |
| `Completion.NoReadReturnsEarly` | dramsim3/src/controller.cc:45-63 | In every run no read that needs the memory is given back before that time. |
| `ControllerPolicy.EveryColumnIsWarranted` | dramsim3/src/controller.cc:269-279 | In every run every read or write command is for an accepted transaction, goes where its address maps, and closes its row exactly under the close-page policy. |
| `ControllerPolicy.ArbitrationIs` | dramsim3/src/command_queue.cc:77-110 | A row may be closed for a queued command exactly if it is the oldest of its bank and no queued command of the bank wants the open row, or four have been served since it was opened. |
| `ControllerPolicy.PrechargeIsJustified` | dramsim3/src/command_queue.cc:77-110 | A precharge the search issues is for such a command, of an unblocked queue, that wants another row. |
| `ControllerPolicy.WriteHeldBackIff` | dramsim3/src/command_queue.cc:218-230 | A queued write is held back exactly while an earlier read of its own row and column stands in its queue. |
| `ControllerPolicy.QueueOrder` | dramsim3/src/command_queue.cc:164-171 | With a queue per bank, queues are numbered by rank, bankgroup and bank, no two banks sharing one. |
| `ControllerPolicy.BlocksExactly` | dramsim3/src/command_queue.cc:146-162 | While a refresh is served, the queues of its rank, or of its bank, are kept from issuing, and no others. |
| `ControllerPolicy.EveryRunKeepsBounds` | dramsim3/src/controller.cc:151-159 | In every run no transaction or command queue exceeds its configured size. |
| `ControllerPolicy.RefusedIffFull` | dramsim3/src/controller.cc:151-159 | In every run a transaction is refused exactly when the queue it would join is full. |
| `ControllerPolicy.WritesWaitTheirTurn` | dramsim3/src/controller.cc:197-228 | With separate queues, writes move only while draining, which begins when the buffer is full, or holds more than eight and no command waits; the oldest moves exactly if there is room and no read of its address is pending. |
| `ControllerPolicy.DrainCounts` | dramsim3/src/controller.cc:197-228 | A drain takes as many writes as were buffered when it began, and ends early at a write that must wait for a read. |
| `ControllerPolicy.OldestMoves` | dramsim3/src/controller.cc:197-228 | With one queue the oldest transaction moves exactly if its command queue has room. |
| `ControllerRuns.EveryRunOrdersWrites` | dramsim3/src/controller.cc:161-263 | In every run without zero or negative column delays in dual-command mode, when a cycle issues a write, every read of its address accepted before has been returned or waits to be collected. |
| `ControllerRuns.ReadBehindWriteIsAnswered` | dramsim3/src/controller.cc:180-185 | A read accepted while a write of its address is pending is collectable from the next cycle and changes nothing else. |
| `DualIssue.AnswerAfterIs` | dramsim3/src/channel_state.cc:76-115 | What the channel answers in the cycle of a column command, from the state before it: the new row buffers decide which command, and the one delay that applies decides whether it is ready. |
| `DualIssue.SecondColumnIff` | dramsim3/src/controller.cc:80-93 | A column command ready before another is ready after it in the same cycle if and only if its row stays open and the delay between the two, with 64-bit wrap, is over at once; same bank included. |
| `DualIssue.SearchStopsAt` | dramsim3/src/command_queue.cc:36-54 | The search answers from the first unblocked queue in turn that is ready, and answers nothing only if none it tried is ready. |
| `DualIssue.SecondSearchIff` | dramsim3/src/controller.cc:80-93 | The second search finds a column command if and only if some entry, judged before the first command, will be the first willing one of the first ready queue in turn and a column command; then it answers that entry. |
| `DualIssue.DropNeedsNoDelay` | dramsim3/src/timing.cc:13-31 | Such an entry and the first command are column commands between which the tables leave no delay. |
| `DualIssue.StageLosesIff` | dramsim3/src/controller.cc:80-93 | A cycle's issues leave a transaction owed that no longer waits, where it did before, if and only if that condition holds before them. |
| `DualIssue.TickLosesIff` | dramsim3/src/controller.cc:65-149 | The same for a whole cycle, in every reachable state of every configuration. |
| `DualIssue.StepKeepsLost` | dramsim3/src/controller.cc:65-263 | No event brings a lost transaction back, offers of its own address included, and nothing is issued for it. |
| `DualIssue.LostForever` | dramsim3/src/controller.cc:65-263 | Over every continuation, of any length, nothing is issued for a lost transaction, and after a lost read the reads of its address are never all returned. |
| `DualIssue.NoHazardNoLoss` | dramsim3/src/controller.cc:65-263 | If no two addresses have column commands with a delay of zero or less between them, the first leaving the second's row open, no run of any length loses anything. |
| `DualIssue.SafeHasNoHazard` | dramsim3/src/timing.cc:13-31 | Positive column delays exclude such a pair of addresses. |
| `DualWitness.ReadIsLost` | dramsim3/src/controller.cc:80-93 | For every two-rank configuration of a stated family, offering a write and a read of different ranks and running four cycles loses the read. |
| `DualWitness.ReadIsNeverReturned` | dramsim3/src/controller.cc:80-93 | In each of them, whatever follows, no read of that address is issued and fewer reads of it are returned than were accepted. |
| `DualWitness.ProneExample` | dramsim3/src/timing.cc:26-28 | A concrete configuration of the family: read latency 3, write latency 1, burst and rank switch of one cycle, so the write-to-read delay across ranks is 0. |
| `DualWitness.DualSafeIsNeeded` | dramsim3/src/controller.cc:80-93 | So the positive delays cannot be dropped: there are a configuration, a run and an accepted read that no continuation answers. |
| `DualWitness.HazardIsFiner` | dramsim3/src/configuration.cc:33-42 | Positive column delays are not needed in every configuration: with a mapping that never leaves one rank, delays across ranks do not matter. |
| `RefreshProgress.SearchAvoidsRank` | dramsim3/src/command_queue.cc:36-54 | While a rank refresh is in progress the search never answers with a command of that rank. |
| `RefreshProgress.TickServes` | dramsim3/src/controller.cc:65-149 | A cycle keeps a due refresh due by the same time, or issues it in time, with or without tPPD. |
| `RefreshProgress.RefreshMeetsDeadline` | dramsim3/src/command_queue.cc:36-75 | From any reachable state, every run that passes the deadline has issued the oldest rank refresh by then, and until then the rank saw only precharges. |
| `RefreshProgress.DueByTable` | dramsim3/src/channel_state.cc:76-106 | A deadline always exists: from the timing table, the number of open banks, tPPD where the protocol has it, and tRP. |
| `RefreshProgress.PrechargedOnce` | dramsim3/src/channel_state.cc:76-106 | While a rank sees only precharges, no bank of it is precharged twice. |
| `RefreshRuns.EveryPeriodAsksForEach` | dramsim3/src/refresh.cc:12-63 | In every controller run under a staggered policy, any period of intervals after the first cycle contains a request for each rank, or for each bank. |
| `ControllerPolicy.RequestsSoFar` | dramsim3/src/refresh.cc:12-26 | In every run as many refreshes were asked for as whole intervals have passed: tREFI, tREFI over the ranks, or tREFIb, by policy. |
| `RefreshRuns.EveryIntervalAsksForEachRank` | dramsim3/src/refresh.cc:12-26 | In every controller run under rank staggering, any tREFI consecutive cycles after the first contain a refresh request for each rank. |
| `RefreshRuns.EveryRunServesInOrder` | dramsim3/src/channel_state.cc:44-74 | In every run the refresh commands of the trace, followed by the waiting requests, are the requests made so far, in order. |
| `ControllerImpl.CommandQueue.DoArbitratePrecharge` | dramsim3/src/command_queue.cc:77-110 | The three scans decide the precharge rule of the specification. |
| `ControllerImpl.CommandQueue.DoHasRWDependency` | dramsim3/src/command_queue.cc:218-230 | The scan finds an earlier read of the same place exactly when there is one. |
| `ControllerImpl.CommandQueue.GetFirstReadyInQueue` | dramsim3/src/command_queue.cc:178-196 | The loop answers with the first entry that is ready and not held back. |
| `ControllerImpl.CommandQueue.EraseRWCommand` | dramsim3/src/command_queue.cc:198-208 | Removes the first entry with the command's address and type, or reports the exit. |
| `ControllerImpl.CommandQueue.DoGetCommandToIssue` | dramsim3/src/command_queue.cc:36-54 | The loop performs the round-robin search, about which SearchIsOk and the fairness results are proved. |
| `ControllerImpl.CommandQueue.GetRefQIndices` | dramsim3/src/command_queue.cc:146-162 | The loop collects exactly the queues of the rank, or the queue of the bank. |
| `ControllerImpl.CommandQueue.DoFinishRefresh` | dramsim3/src/command_queue.cc:56-75 | Blocks the queues of the oldest request once, and releases them with the refresh. |
| `ControllerImpl.CommandQueue.AddCommand` | dramsim3/src/command_queue.cc:127-136 | Appends to the bank's queue if there is room; nothing else changes. |
| `ControllerImpl.CommandQueue.DoQueueEmpty` | dramsim3/src/command_queue.cc:117-125 | Whether all queues are empty. |
| `ControllerImpl.Controller.DoAddTransaction` | dramsim3/src/controller.cc:161-195 | The fields change as the specification of acceptance says. |
| `ControllerImpl.Controller.DoReturnDoneTrans` | dramsim3/src/controller.cc:45-63 | The scan returns and removes the first completed transaction. |
| `ControllerImpl.Controller.AccountRead` | dramsim3/src/controller.cc:237-252 | The loop completes every pending read of the address, in order, and forgets them; EveryAnswerIsDated says when. |
| `ControllerImpl.Controller.DoIssueCommand` | dramsim3/src/controller.cc:230-267 | Bookkeeping, state and trace as specified, or the exit reported; EveryAnswerIsDated and EveryColumnIsWarranted say what that comes to. |
| `ControllerImpl.Controller.DoScheduleTransaction` | dramsim3/src/controller.cc:197-228 | Draining decision, room check and write-after-read check as specified. |
| `ControllerImpl.Controller.DoRefreshTick` | dramsim3/src/refresh.cc:21-63 | The counter inserts a request every interval and moves on. |
| `ControllerImpl.Controller.DoClockTick` | dramsim3/src/controller.cc:65-149 | The whole cycle performs one step of the run about which EveryRunIsOk is proved. |
| `Fairness.CallServesOrApproaches` | dramsim3/src/command_queue.cc:138-144 | A search with queue j ready issues for j or stops at a ready queue at strictly smaller cyclic distance from j. |
| `Fairness.ServedWithinOneRound` | dramsim3/src/command_queue.cc:36-54 | Of as many calls as there are queues, at each of which a queue is ready, one stops at that queue and answers with its first ready command, whatever else changes between calls. |
| `Fairness.CounterCounts` | dramsim3/src/refresh.cc:65-82 | The staggered counter is a mixed-radix number that each refresh increases by one modulo its period. |
| `Fairness.EachOncePerPeriod` | dramsim3/src/refresh.cc:28-63 | From any counter position, each rank or bank is named by exactly one of the refreshes of one period. |
| `Fairness.RefreshSchedule` | dramsim3/src/refresh.cc:21-26 | After t cycles exactly (t - 1) / interval requests were made, the k-th for the k-th place of the order. |
| `Mpmc.NewIsOk` | dramsim3/ext/thread_pool/mpmc_bounded_queue.hpp:150-162 | The constructor's initial sequence numbers satisfy the invariant for every accepted size. |
| `Mpmc.StepKeepsInv` | dramsim3/ext/thread_pool/mpmc_bounded_queue.hpp:183-240 | Every atomic step of any thread keeps the invariant: counters at most size apart, each slot free for or holding one ticket, each ticket held by at most one pusher and one popper. |
| `Mpmc.StepKeepsBooks` | dramsim3/ext/thread_pool/mpmc_bounded_queue.hpp:183-240 | Every step keeps the exact count of writes, publications, moves and releases per ticket, and the order between them. |
| `Mpmc.EveryRunIsExactlyOnce` | dramsim3/ext/thread_pool/mpmc_bounded_queue.hpp:183-240 | After every schedule of any number of threads: each ticket is written, published, moved out and released at most once, in that order and after the same slot's previous lap; what is moved out is what that ticket's push was given; at most size tickets are live. |
| `Mpmc.QuietRunIsExact` | dramsim3/ext/thread_pool/mpmc_bounded_queue.hpp:183-240 | With no call under way, exactly the first enqueue-many tickets were pushed once and exactly the first dequeue-many popped once. |
| `Mpmc.StepRefinesFifo` | dramsim3/ext/thread_pool/mpmc_bounded_queue.hpp:183-240 | Each step is invisible, appends the pusher's value (only below capacity) or removes the head of a first-in first-out queue, and the pop that removed the head returns it. |
| `Mpmc.PushRefusedIff` | dramsim3/ext/thread_pool/mpmc_bounded_queue.hpp:183-200 | A push is refused if and only if it looked at the current position and the queue is full or the pop of that slot's previous lap is unfinished. |
| `Mpmc.PopRefusedIff` | dramsim3/ext/thread_pool/mpmc_bounded_queue.hpp:212-230 | A pop is refused if and only if it looked at the current position and the queue is empty or the push of that ticket is unfinished. |
| `MemoryNet.CreditBalances` | multi_anna/multi_memory_interface.hpp:46-49 | Crediting removes one table entry for the address and moves one read of some reader from the table to its ready set. |
| `MemoryNet.SwitchReqKeepsBooks` | multi_anna/memory_switch.hpp:28-34 | A request crossing the switch keeps, for every stack and address, one table entry per read under way. |
| `MemoryNet.SwitchResKeepsBooks` | multi_anna/memory_switch.hpp:35-41 | The same for a response. |
| `MemoryNet.TakeReqKeepsBooks` | multi_anna/multi_memory_interface.hpp:33-40 | The same when a request leaves the switch. |
| `MemoryNet.TakeResNeverMisses` | multi_anna/multi_memory_interface.hpp:41-54 | A response at a core always finds an entry, and no reader's total changes although the entry may be another reader's. |
| `MemoryNet.AcceptKeepsBooks` | multi_anna/multi_memory_interface.hpp:59-71 | A read accepted by a stack keeps the balance. |
| `MemoryNet.CompleteNeverMisses` | multi_anna/multi_memory_interface.hpp:114-136 | A stack's answer always finds an entry, so the callback's assertion holds, and no reader's total changes. |
| `MemoryNet.RequestKeepsBooks` | multi_anna/multi_memory_interface.hpp:74-92 | A request adds one to its reader's total, nothing to any other's, and keeps the balance. |
| `MemoryNet.CollectKeepsBooks` | multi_anna/multi_memory_interface.hpp:105-113 | Collecting takes exactly what was ready off the reader's total and nothing off any other's. |
| `MemoryNet.RegisterKeepsBooks` | multi_anna/multi_memory_interface.hpp:145-152 | A new reader starts with nothing owed; the others keep theirs. |
| `MemoryRuns.RouteInRange` | multi_anna/multi_memory_interface.hpp:9-17 | The mapped address never equals the switch's "empty" mark and the stack is below 8. |
| `MemoryRuns.RouteIs` | multi_anna/multi_memory_interface.hpp:9-17 | The eight stacks take turns every 64 kilobytes, and within a stack the blocks close up. |
| `MemoryRuns.EveryAddressRoutes` | multi_anna/multi_memory_interface.hpp:9-17 | Every address has its stack if and only if there are at least eight. |
| `MemoryRuns.FewStacksFail` | multi_anna/multi_memory_interface.hpp:74-92 | With fewer than eight, three moves from the empty network index a missing stack. |
| `MemoryRuns.EveryRunBalances` | multi_anna/multi_memory_interface.hpp:29-133 | Every run of readers, switch and stacks: no lookup misses, the tables balance, and each reader's count is never negative and zero exactly when nothing of it is queued, under way or uncollected; a run indexes a missing stack only if there are fewer than eight. |
| `MemoryRuns.DrainedMeansDone` | multi_anna/memory_reader.hpp:23-36 | With nothing under way, a reader with an empty queue is idle once it has collected. |
| `MemoryRuns.TickStacksPointwise` | multi_anna/multi_memory_interface.hpp:56-72 | In whatever order the parallel loop runs, each stack ends as if it alone had ticked. |
| `MemoryRuns.StackOrderIrrelevant` | multi_anna/multi_memory_interface.hpp:56-72 | Two orders over the same stacks give the same network. |
| `MemoryPaths.RequestSends` | multi_anna/multi_memory_interface.hpp:74-92 | With the switch, a request for another core's stack enters the switch at the reader's core and nothing else; otherwise it joins the stack's queue and nothing else. |
| `MemoryPaths.RespondIs` | multi_anna/multi_memory_interface.hpp:114-136 | An answer goes to the oldest asker for its address, or into the switch towards that asker's core with the entry left in place; it misses exactly when there is no entry. |
| `MemoryPaths.StackTickServes` | multi_anna/multi_memory_interface.hpp:58-71 | A stack gives back what its memory finished and takes the smallest waiting addresses, as many as there is room for. |
| `MemoryPaths.EveryRunKeepsPaths` | multi_anna/multi_memory_interface.hpp:29-133 | In every run, for every core, stack and address: what joined a stack's queue was asked for beside it or has left the switch at that stack, and what was sent across, request or answer, is in the switch or has left it at its own end. |
| `MemoryInterfaceImpl.Carry` | multi_anna/memory_switch.hpp:26-42 | Up to two packets leave each input; each output receives exactly those for it, input by input and in order; packets are conserved by target and by origin. |
| `MemoryInterfaceImpl.MemorySwitch.ClockTick` | multi_anna/memory_switch.hpp:26-42 | Both directions carry as above. |
| `MemoryInterfaceImpl.MemorySwitch.GetReq` | multi_anna/memory_switch.hpp:48-56 | The oldest request, or the all-ones mark when there is none. |
| `MemoryInterfaceImpl.MemorySwitch.GetRes` | multi_anna/memory_switch.hpp:63-71 | The oldest response, or the marks. |
| `MemoryInterfaceImpl.CarryKeepsBooks` | multi_anna/memory_switch.hpp:26-42 | Carrying keeps the balance at every stack. |
| `MemoryInterfaceImpl.MultiMemoryInterface.constructor` | multi_anna/multi_memory_interface.hpp:13-28 | A new interface is the empty network and balances. |
| `MemoryInterfaceImpl.MultiMemoryInterface.RegisterId` | multi_anna/multi_memory_interface.hpp:145-152 | The loop adds one empty ready set per stack. |
| `MemoryInterfaceImpl.MultiMemoryInterface.RequestRead` | multi_anna/multi_memory_interface.hpp:74-92 | A request of a reader beside the stack joins its queue; any other enters the switch at the reader's core and nothing else changes; one more owed to the reader, none to others. |
| `MemoryInterfaceImpl.MultiMemoryInterface.GetAllReadyReadRequest` | multi_anna/multi_memory_interface.hpp:105-113 | Returns the number ready over all stacks and clears them. |
| `MemoryInterfaceImpl.MultiMemoryInterface.ReadCallback` | multi_anna/multi_memory_interface.hpp:114-136 | The oldest asker is credited and its entry removed, or, if it belongs to another core, the response enters the switch towards that core and nothing else changes. |
| `MemoryInterfaceImpl.MultiMemoryInterface.DrainRequests` | multi_anna/multi_memory_interface.hpp:33-40 | Every output is emptied into its stack's queue; no total changes. |
| `MemoryInterfaceImpl.MultiMemoryInterface.DrainResponses` | multi_anna/multi_memory_interface.hpp:41-54 | Every response output is emptied; no lookup misses; no total changes. |
| `MemoryInterfaceImpl.MultiMemoryInterface.TickMemory` | multi_anna/multi_memory_interface.hpp:58-71 | One iteration of the parallel loop: the finished reads leave, and the smallest waiting addresses are accepted, as many as there is room for. |
| `MemoryInterfaceImpl.MultiMemoryInterface.TickMemories` | multi_anna/multi_memory_interface.hpp:56-72 | The loop in index order, hence in any order. |
| `MemoryInterfaceImpl.MultiMemoryInterface.TickSwitch` | multi_anna/multi_memory_interface.hpp:31-54 | The switch half of a cycle: which packets cross, which stacks' queues they join and which readers are credited; both outputs end empty. |
| `MemoryInterfaceImpl.MultiMemoryInterface.ClockTick` | multi_anna/multi_memory_interface.hpp:29-73 | A cycle is exactly: the switch carries up to two packets per input, every output is emptied in index order, then every stack ticks; it keeps balance and every reader's total. |
| `MemoryInterfaceImpl.MemoryReader.constructor` | multi_anna/memory_reader.hpp:8-14 | A new reader is idle and reported; the other readers' accounts do not move. |
| `MemoryInterfaceImpl.MemoryReader.SubmitReadRequest` | multi_anna/memory_reader.hpp:15-22 | One request per stride is queued and counted. |
| `MemoryInterfaceImpl.MemoryReader.ClockTick` | multi_anna/memory_reader.hpp:23-36 | The first 17 queued addresses, or all, are requested in order, everything ready is collected, the count never goes below zero, other readers are untouched. |
| `MemoryInterfaceImpl.MemoryReader.IsReady` | multi_anna/memory_reader.hpp:38-41 | True exactly when nothing of the reader is queued, under way or uncollected. |
| `MemoryInterfaceImpl.MemoryReader.FinishAndReset` | multi_anna/memory_reader.hpp:43-50 | Reports each drained batch once. |
| `HmcCube.InsertKeepsBooks` | dramsim3/src/hmc.cc:397-417 | An inserted request adds exactly the one outstanding response it is owed on its link, and keeps the lookup table equal to the requests under way. |
| `HmcCube.PacketSizes` | dramsim3/src/hmc.cc:5-227 | Every packet is one flit of header and sixteen bytes a flit, of what its type carries each way; responses are of the kind the type asks for, none to posted requests. |
| `HmcCube.RespForOwes` | dramsim3/src/hmc.cc:397-417 | The response made for a request is the one it is owed: its address, the link that took it, the quad of its vault, the kind and size of its type. |
| `HmcCube.CrossKeepsBooks` | dramsim3/src/hmc.cc:469-485 | A request crossing to its quad keeps balance, ages and queue bounds. |
| `HmcCube.EnterKeepsBooks` | dramsim3/src/hmc.cc:446-459 | A request entering its vault keeps them too. |
| `HmcCube.AnswerNeverMisses` | dramsim3/src/hmc.cc:621-635 | A vault's answer always finds a response in the lookup table. |
| `HmcCube.CrossBackKeepsBooks` | dramsim3/src/hmc.cc:519-535 | A response crossing to its link keeps balance, ages and bounds. |
| `HmcCube.DeliverKeepsBooks` | dramsim3/src/hmc.cc:496-509 | A delivered response leaves on its own link and takes exactly itself off the outstanding ones. |
| `HmcPace.NextCycle` | dramsim3/src/hmc.cc:461-466 | A new logic cycle keeps the bandwidth bound of every window. |
| `HmcPace.Admit` | dramsim3/src/hmc.cc:473-479 | Admitting a packet to a free port keeps it. |
| `HmcPace.BusyFor` | dramsim3/src/hmc.cc:461-466 | A port that admits f flits is free again after exactly f / 2 cycles, rounded up. |
| `HmcPace.BuildAgeQueue` | dramsim3/src/hmc.cc:589-613 | The list holds every source with a positive age exactly once and no other. |
| `HmcPace.RoundUpIs` | dramsim3/src/hmc.cc:569-587 | A count whose product with the period lies within one period above the time is that time divided by the period, rounded up. |
| `HmcImpl.HmcMemorySystem.WillAcceptTransaction` | dramsim3/src/hmc.cc:330-341 | True exactly when some link has room. |
| `HmcImpl.HmcMemorySystem.InsertReqToLink` | dramsim3/src/hmc.cc:397-417 | Succeeds exactly when the link has room; the request is then owed a response on that link, from its quad, of its kind and size. |
| `HmcImpl.HmcMemorySystem.InsertHMCReq` | dramsim3/src/hmc.cc:419-442 | The first link with room, from the next in turn on, takes the request, and the one after it is next; refused exactly when all are full. |
| `HmcImpl.HmcMemorySystem.EnterVaults` | dramsim3/src/hmc.cc:446-459 | Each quad's front request enters its vault exactly when it has crossed, the vault accepts it and the response queue has room. |
| `HmcImpl.HmcMemorySystem.CrossLinks` | dramsim3/src/hmc.cc:468-491 | Every waiting link gets one turn; no link is left whose quad could still take its front request; every front() is of a non-empty queue. |
| `HmcImpl.HmcMemorySystem.DrainRequests` | dramsim3/src/hmc.cc:444-492 | One logic cycle of the request side keeps balance, ages, ledger and bandwidth. |
| `HmcImpl.HmcMemorySystem.VaultCallback` | dramsim3/src/hmc.cc:621-635 | Moves the response the lookup finds to its quad. |
| `HmcImpl.HmcMemorySystem.DRAMClockTick` | dramsim3/src/hmc.cc:544-567 | The vaults answer exactly the given requests in order; no lookup misses; the memory clock advances. |
| `HmcImpl.HmcMemorySystem.DeliverResponses` | dramsim3/src/hmc.cc:496-509 | Each link delivers at most one response that has crossed in full. |
| `HmcImpl.HmcMemorySystem.CrossQuads` | dramsim3/src/hmc.cc:518-541 | Every waiting quad gets one turn; none is left whose link could still take its front response. |
| `HmcImpl.HmcMemorySystem.DrainResponses` | dramsim3/src/hmc.cc:494-542 | One logic cycle of the response side keeps everything. |
| `HmcImpl.HmcMemorySystem.ClockTick` | dramsim3/src/hmc.cc:569-587 | A tick is one memory cycle and keeps the whole invariant, and afterwards the logic clock is the memory time divided by the logic period, rounded up. |
| `HmcImpl.HmcMemorySystem.PortBandwidth` | dramsim3/src/hmc.cc:461-490 | Over any n consecutive logic cycles a quad or response link admits at most 2(n - 1) flits plus one largest packet. |
| `HmcImpl.HmcMemorySystem.AllAnswered` | dramsim3/src/hmc.cc:419-542 | With queues and vaults empty, every accepted request has got its own response, on its own link, exactly once. |
| `HmcImpl.HmcMemorySystem.EveryResponseIsOwed` | dramsim3/src/hmc.cc:397-417 | A response anywhere in the cube is one that an accepted request is owed, in link, quad, kind and size. |
| `HmcImpl.HmcMemorySystem.CrossNow` | dramsim3/src/hmc.cc:472-485 | A request that crosses joins its vault's quad and leaves the crossbar as many cycles later as it has flits; the port is busy for its flits. |
| `HmcImpl.HmcMemorySystem.CrossBackNow` | dramsim3/src/hmc.cc:522-535 | The same for a response and its link. |
| `ThermalMatrix.MatrixSorted` | dramsim3/src/thermal_solver.c:301-393 | The matrix is in row order with strictly increasing columns in each row. |
| `ThermalMatrix.MatrixSymmetric` | dramsim3/src/thermal_solver.c:307-355 | An entry is in the matrix if and only if its transpose is. |
| `ThermalMatrix.OffDiagonalIs` | dramsim3/src/thermal_solver.c:307-355 | Between any two nodes of the grid the matrix holds exactly minus the inverse of the resistance between them, along x, along z or between layers, and nothing where they are not neighbours. |
| `ThermalMatrix.EntriesInGrid` | dramsim3/src/thermal_solver.c:301-393 | Every entry is between two nodes of the grid. |
| `ThermalMatrix.RowSum` | dramsim3/src/thermal_solver.c:358-372 | Every row sums to zero, except 1/Ramb at the sink nodes. |
| `ThermalMatrix.DiagonalPositive` | dramsim3/src/thermal_solver.c:358-372 | Every diagonal entry is positive. |
| `ThermalMatrix.StackLength` | dramsim3/src/thermal_solver.c:258-282 | The matrix has one entry per neighbour pair and direction and one per node. |
| `ThermalAssembly.CountEntries` | dramsim3/src/thermal_solver.c:258-282 | The counting loops, which visit nodes in another order than the filling loops, yield exactly the number of entries. |
| `ThermalAssembly.FillDiagonal` | dramsim3/src/thermal_solver.c:358-372 | The diagonal balances the row; sink nodes also conduct to the ambient. |
| `ThermalAssembly.SortRow` | dramsim3/src/thermal_solver.c:374-388 | The swaps bring the diagonal to its place and leave the other entries in order. |
| `ThermalAssembly.FillRow` | dramsim3/src/thermal_solver.c:307-388 | One row of the matrix is written behind what was there; OffDiagonalIs says what is in it. |
| `ThermalAssembly.CalculateMidx` | dramsim3/src/thermal_solver.c:258-393 | What was counted is allocated and filled exactly with the matrix, of which OffDiagonalIs, RowSum and MatrixSorted say what it holds. |
| `ThermalSolver.Pass` | dramsim3/src/thermal_solver.c:660-679 | The blocked accumulation computes the explicit step at every node. |
| `ThermalSolver.Transient` | dramsim3/src/thermal_solver.c:651-688 | Swapping the two arrays computes any number of steps. |
| `ThermalSolver.ScanLimit` | dramsim3/src/thermal.cc:735-750 | The scan finds the smaller of 100 and the smallest capacity-over-conductance ratio. |
| `ThermalSolver.CalculateTimeStep` | dramsim3/src/thermal.cc:735-760 | The fewest steps from 10 up whose length is strictly below the limit; the search terminates. |
| `ThermalPrinciple.NodeStep` | dramsim3/src/thermal_solver.c:660-679 | The new temperature of a node depends on its own row only, in closed form. |
| `ThermalBalance.NodeHeat` | dramsim3/src/thermal_solver.c:660-679 | The heat equation at each node: a step raises it by step over capacity times what is fed in, plus what its neighbours send through the resistances between them, less what the sink loses. |
| `ThermalBalance.HeatConserved` | dramsim3/src/thermal_solver.c:660-679 | Over the whole grid, what a step stores is what it is fed less what the sink sheds to the ambient; all exchange between nodes cancels. |
| `ThermalBalance.HeatOverSteps` | dramsim3/src/thermal_solver.c:651-688 | The same over any number of steps. |
| `ThermalPrinciple.StepsMonotone` | dramsim3/src/thermal_solver.c:660-688 | Comparison principle: over any number of stable steps, a warmer start and more heat keep every node at least as warm. |
| `ThermalPrinciple.MaximumPrinciple` | dramsim3/src/thermal_solver.c:641-688 | With no power, temperatures stay between the extremes of the start and the ambient for any number of steps. |
| `ThermalPrinciple.LimitIsStable` | dramsim3/src/thermal.cc:739-750 | A step no longer than the scanned limit is stable. |
| `ThermalPrinciple.QuietEpoch` | dramsim3/src/thermal.cc:735-760 | Assembly, step choice and stepping together keep the range. |
| `ThermalPrinciple.SlotsAgreeIff` | dramsim3/src/thermal_solver.c:642-648 | The steady solver (lines 503-510) feeds each cell's power to the cell's own node; the stepping loop feeds the same nodes if and only if the grid is a single line. |
| `ThermalPrinciple.TransientSlotsFillLayer` | dramsim3/src/thermal_solver.c:642-648 | Even so, the cells of a layer fill exactly that layer's nodes, each once. |
| `AnnaWork.FillBuckets` | multi_anna/multi_anna.hpp:209-217 | The buckets hold exactly the visits the queries l to r ask for, each in query order. |
| `AnnaWork.Flush` | multi_anna/multi_anna.hpp:218-223 | The non-empty buckets are appended by cluster number, nothing lost. |
| `AnnaWork.Group` | multi_anna/multi_anna.hpp:202-224 | Every visit of every query is in the lists exactly once; an entry is of one batch of queries, and entries go batch by batch and by cluster within a batch. |
| `AnnaWork.Deal` | multi_anna/multi_anna.hpp:231-239 | Core k gets entry k and then every cores-th, in order; a core gets a non-empty list if and only if there are more entries than its number. |
| `AnnaWork.Partition` | multi_anna/multi_anna.hpp:202-243 | The lists of the cores are those of Group dealt as Deal says; together exactly what the queries ask for, and core k has work if and only if there are more than k entries. |
| `AnnaWork.FromSteps` | multi_anna/multi_anna.hpp:73-91 | Neighbouring batches of the canonical order are of the same or the next list position. |
| `AnnaWork.FromLast` | multi_anna/multi_anna.hpp:33-35 | A batch closes the last query set if and only if it is the last of the canonical order. |
| `AnnaWork.SlicesTile` | multi_anna/multi_anna.hpp:76-91 | The slices tile the rest of a query set and every later set. |
| `AnnaWork.CanonicalIsComplete` | multi_anna/multi_anna.hpp:73-91 | A core's canonical batches together are exactly its work. |
| `AnnaWork.CanonicalWork` | multi_anna/multi_anna.hpp:202-243 | Over any number of cores, canonical batches are together exactly the work of the lists. |
| `AnnaFetch.EncodedVectorFetchModule.CountersOrdered` | multi_anna/encoded_vector_fetch_module.hpp:17-64 | fetched <= fetching <= submitted with at most 2 between the first two, and fetched stays below the number of the last request plus one. |
| `AnnaFetch.EncodedVectorFetchModule.MetadataTick` | multi_anna/encoded_vector_fetch_module.hpp:19-43 | A finished metadata read is counted once; a queued request is started exactly when all earlier metadata is in and the reader is free, and its predecessor is superseded. |
| `AnnaFetch.EncodedVectorFetchModule.VectorTick` | multi_anna/encoded_vector_fetch_module.hpp:44-54 | A finished vector read is counted once; the superseded request's vectors are asked for at once and in order. |
| `AnnaFetch.EncodedVectorFetchModule.ClockTick` | multi_anna/encoded_vector_fetch_module.hpp:17-54 | A cycle keeps the whole accounting, counts exactly the reads that finished, and starts the queued request exactly when it may. |
| `AnnaFetch.EncodedVectorFetchModule.SubmitRequest` | multi_anna/encoded_vector_fetch_module.hpp:56-64 | Returns the number of earlier requests; the accounting survives if and only if the vectors of all requests but the newest have arrived. |
| `AnnaFetch.ClusterCodebookProcessingModule.ClockTick` | multi_anna/cluster_codebook_processing_module.hpp:13-36 | A free module takes up to 128 waiting centroids; when their reads are in it computes for exactly 27648 cycles and then counts them as computed. |
| `AnnaFetch.ClusterCodebookProcessingModule.IsFinished` | multi_anna/cluster_codebook_processing_module.hpp:42-45 | True exactly when everything submitted has been computed. |
| `AnnaFetch.ClusterCodebookProcessingModule.SubmitClusterRequest` | multi_anna/cluster_codebook_processing_module.hpp:46-51 | The centroids join the waiting queue in order. |
| `AnnaCoreImpl.SaveKeeps` | multi_anna/multi_anna.hpp:28-37 | Saving the last stage's batch sets Finished exactly when it is the last of the canonical order. |
| `AnnaCoreImpl.PrefetchSteps` | multi_anna/multi_anna.hpp:56-63 | The next batch to fetch is of the last one's list position or the next. |
| `AnnaCoreImpl.EnterKeeps` | multi_anna/multi_anna.hpp:73-91 | The batch that enters is the head of the canonical order still to come. |
| `AnnaCoreImpl.AnnaCore.Save` | multi_anna/multi_anna.hpp:28-37 | The batch of the last stage is saved exactly when the computation is ready, in canonical order. |
| `AnnaCoreImpl.AnnaCore.Compute` | multi_anna/multi_anna.hpp:40-53 | A batch is given to the computation exactly when that is free and the awaited fetches are in, in canonical order. |
| `AnnaCoreImpl.AnnaCore.Prefetch` | multi_anna/multi_anna.hpp:56-70 | A batch goes on to the fetch stage exactly when that is free, its centroids are computed and a request can be queued; each list position's cluster is requested exactly once, in order. |
| `AnnaCoreImpl.AnnaCore.NextSlice` | multi_anna/multi_anna.hpp:76-91 | The slice taken starts where the previous one ended. |
| `AnnaCoreImpl.AnnaCore.Enter` | multi_anna/multi_anna.hpp:73-96 | The next slice enters exactly when the first stage is free, no centroid waits and there is a slice. |
| `AnnaCoreImpl.AnnaCore.TickFetch` | multi_anna/multi_anna.hpp:24-40 | While a batch waits, the vector fetches never pass the awaited number, so the equality test is not overshot. |
| `AnnaCoreImpl.AnnaCore.ClockTick` | multi_anna/multi_anna.hpp:20-97 | A cycle keeps the pipeline invariant and moves each stage on exactly when it may, the last stage first. |
| `AnnaCoreImpl.AnnaCore.InFlight` | multi_anna/multi_anna.hpp:20-97 | What was saved, given and issued are prefixes of the canonical order, at most three batches apart, and Finished holds exactly when the last is saved. |
| `AnnaCoreImpl.AnnaCore.FinishedMeansDone` | multi_anna/multi_anna.hpp:28-37 | A finished core has done exactly its work; a core with an empty list never finishes. |
| `AnnaCoreImpl.EndToEnd` | multi_anna/multi_anna.hpp:202-261 | End to end: for the lists the program builds, once every core is finished, each (cluster, query) pair the queries ask for has been done exactly once. |
| `AnnaCoreImpl.SomeCoreNeverFinishes` | multi_anna/multi_anna.hpp:231-258 | With fewer list entries than cores, the first core without an entry is never finished, so the waiting loop does not end. |

## Left out

- Self-refresh: disabled, as in every shipped configuration; its commands appear in the tables only.
- A same-bank guarantee after a bank refresh from tRFCb: the program stores that list where its timing update does not look
  (dramsim3/src/timing.cc:225), and the model does the same.
- Simultaneous rank refresh serves only the first rank (dramsim3/src/refresh.cc:36); the model does so too and nothing more is claimed.
- Liveness of mixed read and write scheduling, and any bound on how long a row miss waits.
- RefreshMeetsDeadline: for rank refreshes; a bank refresh shares its queue's blocking but has no deadline of its own here.
- ReadIsLost: for the stated family of two-rank configurations. Two addresses with no delay between them are necessary for a
  loss in every configuration (NoHazardNoLoss); whether a run brings both to the same cycle depends on every other delay and on
  the refresh interval, and is not decided from the configuration alone. The exact condition on a state is that of TickLosesIff.
- BurstsNeverOverlap: for non-negative parameters with which reopening a row outlasts the difference of the latencies;
  nothing is claimed otherwise.
- SetAddressMapping: leaves out geometries with fewer column bits than burst bits, for which the program shifts by a negative
  width, which has no defined result.
- RequestRead: leaves out addresses of stacks that do not exist, where the program indexes outside its vectors; MemoryRuns
  models that outcome and shows that it needs fewer than eight stacks.
- MemoryReader.ClockTick: leaves out queued addresses of such stacks, for the same reason.
- ServedWithinOneRound: the queue must be ready at each call; being ready once does not oblige the next call.
- The weak memory orders of the bounded queue, its move operations and `stop`; the thread pool's workers and mutex queue.
- Banks are kept by value in a map from coordinates; equal keys of a multimap are kept in insertion order; the capacity of a
  transaction queue is the configured size.
- BuildAgeQueue: claims that each active source is listed once, not that the oldest comes first, since the program compares an
  age with a source number (dramsim3/src/hmc.cc:601).
- Request types of the cube with the same packet sizes and response are one type; `AddTransaction`'s choice of a type by block
  size, and the bound on the quads' response queues, which only new entries respect.
- The resistance formulas and TSV map of dramsim3/src/thermal_solver.c:89-257, the steady solver and rounding.
- QuietEpoch: bounds temperatures for zero power only; with power, StepsMonotone compares runs instead of bounding them.
- That a batch's own vectors have arrived when its computation starts: the program waits for the fetches of earlier requests
  (multi_anna/encoded_vector_fetch_module.hpp:63).
- The order in which a lookup table yields equal addresses across readers, beyond insertion order; write requests of the
  interface, which has none; `GetOneReadyReadRequest`, which nothing calls.
- The timing of the similarity computation, statistics, energy, output files, parsing of configuration and command line, the
  ideal memory system and the loop over channels of dramsim3/src/dram_system.cc:132-200: they would only add easy members.
