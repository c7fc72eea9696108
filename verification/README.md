# FMMA: proofs about the trading fabric and its host

FMMA is a small trading system split over two processors.  A 16-register CPU in an
FPGA runs a 154-word program out of a 1024-word RAM; an ARM host shares that RAM,
publishes quotes under a sequence lock, reports fills, polls decisions, and keeps
profit and loss, orders and statistics.  This project models the CPU, the program,
the host's half of the protocol and the interleaving of the two, the assembler the
program came from, and five self-contained algorithms of the host, and proves what
they promise, or exactly when they keep it.

`dafny verify dfyconfig.toml` checks everything.

## How it is put together

| Modules | What they hold |
|---|---|
| `Arith`, `Wrappers` | powers of two and facts about products and quotients; an optional value |
| `Isa`, `CpuModel`, `AluLaws` | words, decoder and encoders; the machine as a value (`Step`) and as an object (`Cpu`) proved to follow it; what results and flags mean |
| `Program`, `TradingCore`, `Simulation`, `Flow` | the image word by word, the listing it decodes to, the same program as a state machine over named variables, the proof that one machine step is one step of it, and its control flow as a table |
| `Safety`, `Pass`, `ColdStart` | safety from any registers under any host stores, bounded passes, the heartbeat, loading |
| `Strategy`, `CStrategy` | the strategy in 32-bit arithmetic and as the C host states it, and exactly when they agree |
| `Board`, `Refinement`, `Seqlock`, `Fills`, `Polls`, `System` | CPU instructions and single host stores and loads interleaved; one inductive invariant in five parts; runs |
| `KillSwitch`, `Inventory`, `Reports`, `ReportWindow`, `Latency`, `Results` | properties of whole runs, told of the machine's memory words |
| `Compose`, `Script`, `Rounds`, `Overshoot`, `LostFill`, `Lap` | runs with a known outcome: what one pass of the CPU on its own does, and the runs that show where a promise fails or a bound is reached |
| `Host`, `Handshake` | the host's shared-RAM operations in place, with the list of stores each makes; the version handshake against the running CPU |
| `Assembler`, `AsmMeaning`, `Acceptance` | the two passes, a source-level semantics by line and label, the simulation, and exactly what is accepted |
| `Risk`, `Fixed`, `Exec`, `Stats`, `App`, `Joint` | average-cost accounting, decimal text, the order table, the latency histogram, the glue, and host program and board together |

In `Board` one act is one CPU instruction, one host store or one host load, so a run is
any interleaving.  A record beside the machine (`Log`) notes each quote when the CPU
accepts it and each fill when the CPU applies it, with the configuration words as the
CPU read them.  Nothing in the machine depends on the record; `Results` states its
theorems about the machine's memory and about what an onlooker collects from it.
Sequence numbers are 32-bit in the machine and unbounded in the record.

## Where the code and its documentation part

* `docs/07-shared-memory-protocol.md:64-70` says the two sides never write the same
  word.  The CPU also clears CFG_RESTART (image word 155) and the host clears FW_VERSION
  (`Software/src/fmma_fpga.c:168`).  `Safety.Writable` and `Board.Enabled` carry the two exceptions.
* `docs/07-shared-memory-protocol.md:257` says wrapping of sequence numbers is harmless.
  It is not when exactly a positive multiple of 2^31 publications fall between the CPU's two reads of
  TICK_SEQ.  `Lap.MixedPair` is a run of the machine in which the CPU then records a quote
  that was never published; `Lap.LapExact` says that with at most n publications in
  between every recorded quote is whole if and only if n < 2^31.
* `docs/09-risk-management.md:22` says inventory cannot exceed N lots either way.  With
  K decisions outstanding the bound is N - 1 + K (`Results.PositionBounded`), and runs of
  the machine reach it for every positive N and K with N - 1 + K < 2^31
  (`Overshoot.LimitOvershoot`).  N itself is kept, for N below 2^31 - 1 and every K, if and
  only if K is one or N is zero (`Overshoot.LimitExact`).
* `docs/09-risk-management.md:72` says each fill is applied exactly once.  A report is open
  from its store of FILL_SEQ until the CPU has loaded FILL_SIDE (image word 58) and
  FILL_QTY (word 60).  Between two moments at which nothing waits, the fills applied are
  the reports made, in order, if no word of an open report is stored over; and, when
  successive reports differ in side and in quantity, only if (`ReportWindow.FillsExact`).
  For their number a look at FILL_SEQ between every two reports is what it takes
  (`Reports.CountExact`).  Two runs of the machine show both failures:
  `LostFill.ReportLost`, without a look, and `LostFill.ReportSwapped`, with one.
  Reports that wait for one another are applied exactly once (`Results.FillsExactlyOnce`),
  and a host can tell from HEARTBEAT that it has waited long enough (`Reports.HeartbeatTells`).
* `fmma_parse_scaled` multiplies a 32-bit divisor: its padding loop ends if and only if the
  scale is at most 4135583744 (`Fixed.NeverReached`).  With fewer than two places the clamped parse is
  not exact (`Fixed.PlacesNeeded`), and scales such as 11 print fewer places than they
  read (`Fixed.RoundTrip` says which values survive).
* `Software/src/fmma_strategy.h:4` calls the C strategy a transcription of the assembly.  For
  a given anchor and a threshold below 2^31 the two agree on all clamped quotes if and only
  if anchor + 2 * threshold < 2^31; for a larger threshold, with u = threshold - 2^31, if
  and only if anchor + 2u < 2^31 and the band anchor - 2u to anchor + 2u holds every sum of
  two clamped prices (`CStrategy.BandExact`).
* The assembler accepts a constant named like a label waiting in front of it and then
  overwrites its value (`Assembler.ShadowedConstant`).  The table of an accepted program is
  right if and only if every such constant had the label's address to begin with
  (`Assembler.SymbolsAreRight`).

## Model

| member | source | states |
|---|---|---|
| `Isa.Decode` | Software/fmma_isa.py:285-341 | every word decodes to register numbers, immediates and displacements in range, and to HALT exactly when it is zero |
| `Isa.DecodeFields` | Software/fmma_isa.py:285-341 | what a word put together from its fields decodes to, for all fields; undefined exactly in the memory class with a sub-code other than 0, 4 and 12 |
| `Isa.RoundTrip` | Software/fmma_isa.py:207-246 | whatever an encoder accepts decodes back to the same instruction and is never the HALT word |
| `AluLaws.AndBits` | Software/fmma_sim.py:95-96 | bit i of the result of AND is both bits, for all words and every i |
| `AluLaws.OrBits` | Software/fmma_sim.py:97-98 | bit i of the result of OR is either bit |
| `AluLaws.XorBits` | Software/fmma_sim.py:99-100 | bit i of the result of XOR is whether the bits differ |
| `AluLaws.AddMeaning` | Software/fmma_sim.py:106-119 | ADD is signed addition unless F, which is set exactly on signed overflow; ADDU's carry completes the unsigned sum |
| `AluLaws.SubMeaning` | Software/fmma_sim.py:132-140 | SUB is signed subtraction unless F, set exactly on overflow; a clear C is the unsigned borrow |
| `AluLaws.SubUndoesAdd` | Software/fmma_sim.py:113-140 | ADD and SUB of the same operand undo each other on all words |
| `AluLaws.CmpMeaning` | Software/fmma_sim.py:153-160 | CMP's N is SUB's sign corrected by its overflow, L its borrow, Z equality |
| `AluLaws.BranchMeaning` | Software/fmma_isa.py:135-148 | after CMP the six conditions are the signed comparisons their names say |
| `AluLaws.FlagsMeaning` | Software/fmma_sim.py:86-160 | where an operation sets Z or N they are of its result; the logical operations, MOV, MUL and the shifts leave every flag clear |
| `AluLaws.CarryMeaning` | Software/fmma_sim.py:121-130 | ADDC with a carry in completes the sum of three, its C the carry out |
| `AluLaws.BorrowMeaning` | Software/fmma_sim.py:142-151 | SUBC takes off one more without a carry in; a clear C is the borrow for every operand but 2^32 - 1 without carry |
| `AluLaws.MulMeaning` | Software/fmma_sim.py:103-104 | MUL by one more is one ADD more |
| `AluLaws.LeftShiftMeaning` | Software/fmma_sim.py:162-168 | for every operand word whose low five bits are n < 16, LSH and ASH multiply by 2^n modulo 2^32 |
| `AluLaws.RightShiftMeaning` | Software/fmma_sim.py:162-171 | for every operand word whose low five bits are n >= 16, LSH divides by 2^(32 - n), and ASH its signed reading, rounding down |
| `CpuModel.Cpu.StepOnce` | Software/fmma_sim.py:250-311 | one step in place is `Step`: registers, memory, flags, program counter and counters; stalls exactly on an undefined word |
| `AluLaws.RegisterFile` | Software/fmma_sim.py:250-311 | a register reads what was last written to it, all others are unchanged |
| `AluLaws.HeldMeaning` | Software/fmma_sim.py:250-311 | a zero word costs one cycle and one poll and changes nothing else; an undefined word holds the CPU |
| `CpuModel.Cpu.Run` | Software/fmma_sim.py:313-335 | the loop ends in the state of so many steps, having executed the whole budget unless it got stuck |
| `CpuModel.Cpu.LoadProgram` | Software/fmma_sim.py:244-246 | the memory after loading is the words placed from the base on |
| `CpuModel.Cpu.Write` | Software/fmma_sim.py:241-242 | a host store truncates the value, wraps the address and changes nothing else |
| `Program.ImageDecodes` | Software/fpga_program.h:17-170 | each of the 154 words decodes to its line of the listing, none to HALT or undefined |
| `Simulation.InstructionSim` | Software/fpga_program.h:17-166 | at every word of the program one instruction of the machine is one step of the trading core |
| `Safety.StepSafe` | Software/fpga_program.h:17-166 | from a safe state: a defined instruction, three cycles, stores only to word 266 or 320-329, progress toward the loop head |
| `Pass.SafeForever` | Software/fpga_program.h:17-170 | under any stores outside the image the PC stays in words 8-157 for ever, HALT and undefined words are never fetched, the image is never altered |
| `Pass.ReachesLoop` | Software/fpga_program.h:55-166 | from every word the loop head is reached within the number of instructions `Left` gives |
| `Pass.BoundedPass` | Software/fpga_program.h:55-166 | from word 46 the CPU is back there within 81 instructions and 243 cycles whatever the host stores |
| `Pass.IdlePass` | README.md:263 | with nothing to do a pass is exactly 13 instructions and 39 cycles |
| `Pass.HeartbeatCounts` | Software/fpga_program.h:55-60 | from the loop head, unless word 154 is reached, HEARTBEAT after n returns is the count before plus n, whatever the host stores elsewhere |
| `ColdStart.NoEarlyStart` | Software/src/fmma_fpga.c:144-149 | from a parked CPU no interleaving executes an instruction before all 154 words are in memory; after that the machine is safe |
| `ColdStart.VersionIsFresh` | Software/src/fmma_fpga.c:166-189 | FW_VERSION nonzero after it was cleared means the CPU executed word 44 in between |
| `Handshake.AcceptanceProves` | Software/src/fmma_fpga.c:166-189 | each load of wait_for_cpu has its own moment in a run since FW_VERSION was cleared; if it accepts, the CPU executed word 44 before the accepting load of FW_VERSION, and word 47 between the first load of HEARTBEAT and the accepting one |
| `Handshake.AdoptsCounters` | Software/src/fmma_fpga.c:179-183 | the counters adopted are the ones the ticker, the reporter and the published decisions are at |
| `Host.Fpga.PublishTick` | Software/src/fmma_fpga.c:228-247 | appends exactly the six stores of the sequence lock, in order, to the list of stores made; the counter moves by two |
| `Host.Fpga.ReportFill` | Software/src/fmma_fpga.c:249-257 | appends exactly side, quantity and then the counter |
| `Host.Fpga.PollSignal` | Software/src/fmma_fpga.c:259-276 | new exactly when SIGNAL_SEQ moved; sequence before plus one plus missed is the sequence after |
| `Host.Fpga.SetEnabled` | Software/src/fmma_fpga.c:119-124 | one store, to CFG_ENABLE |
| `Host.Fpga.WriteProgram` | Software/src/fmma_fpga.c:126-164 | refused exactly for a wrong base or length; otherwise appends the loader's stores in order, entry word last, and every word is in place |
| `Host.LoaderInstalls` | Software/src/fmma_fpga.c:144-149 | any prefix of the loader's stores leaves the entry word and everything outside the program alone |
| `Host.LoaderOrder` | Software/src/fmma_fpga.c:144-149 | the stores of the loop are the ones `ColdStart` interleaves with the CPU |
| `Host.Fpga.WaitForCpu` | Software/src/fmma_fpga.c:166-209 | clears FW_VERSION, asks for a restart, concludes from the first decisive of at most fifty looks, and only on acceptance adopts SIGNAL_SEQ, FILL_SEQ and TICK_SEQ without its lowest bit |
| `Host.Concludes` | Software/src/fmma_fpga.c:174-203 | accepted at a look with version 2 and a moved heartbeat, before which none was decisive; no heartbeat exactly when none of fifty is |
| `Host.FirstDecides` | Software/src/fmma_fpga.c:174-203 | the first decisive look of fifty decides by its version: 2 accepted, 0 a failed probe, anything else the wrong version |
| `Strategy.AnchorIsLastQuote` | Software/src/fmma_strategy.c:28-39 | the anchor is the doubled mid of the last two-sided quote |
| `Strategy.TriggersAccounted` | Software/fpga_program.h:99-162 | decisions plus rejects equals the number of quotes that moved out of the band |
| `CStrategy.SoftStrategy.OnQuote` | Software/src/fmma_strategy.c:17-55 | the struct in place follows the C strategy as a function |
| `CStrategy.SoftStrategy.OnFill` | Software/src/fmma_strategy.c:57-62 | the position moves by the signed quantity, nothing else changes |
| `CStrategy.BandAgreement` | Software/src/fmma_strategy.c:25-35 | the CPU's band test and the C one agree on a quote if and only if one of three range conditions holds |
| `CStrategy.ThresholdWraps` | Software/fpga_program.h:102-103 | a threshold from 2^31 on acts on the CPU like the one without its top bit, while the C code never triggers |
| `CStrategy.BandExact` | Software/src/fmma_strategy.c:25-35 | for any anchor clamped prices give and any threshold the two agree on all clamped quotes if and only if the upper edge stays below 2^31 and, for a threshold from 2^31 on, the band without its top bit holds every clamped quote |
| `CStrategy.LimitAgreement` | Software/src/fmma_strategy.c:43-53 | enable switch and position limit agree for every limit but 2^31 |
| `CStrategy.EventAgreement` | Software/src/fmma_strategy.c:17-62 | one quote or fill keeps anchor, position, rejects and decisions equal |
| `CStrategy.FoldAgreement` | Software/src/fmma_strategy.c:17-62 | over any events in range, every band fitting as `BandExact` says, the 32-bit fold is the C fold |
| `Refinement.CpuRefines` | Software/fpga_program.h:17-166 | every instruction keeps the output words equal to what the strategy makes of the record |
| `Refinement.PublishRefines` | Software/fpga_program.h:140-151 | the store of SIGNAL_SEQ publishes exactly the decision the strategy makes of the quote read |
| `Refinement.SuppressRefines` | Software/fpga_program.h:152-162 | the reject path counts exactly the moves the strategy refuses |
| `Refinement.HostRefines` | Software/src/fmma_fpga.c:234-257 | host stores outside the output words do not disturb that |
| `Seqlock.CpuLocked` | Software/fpga_program.h:77-92 | every instruction keeps the facts about the two reads of TICK_SEQ and the pair between them |
| `Seqlock.TickLocked` | Software/src/fmma_fpga.c:234-246 | so does every single store of a publication, wherever the CPU is |
| `Seqlock.SameSeq` | Software/fpga_program.h:89-91 | equal 32-bit sequence numbers are a multiple of 2^31 publications apart |
| `Seqlock.StrictlyForward` | Software/fpga_program.h:77-92 | of two accepted quotes the later was published later, and read after the earlier was rechecked |
| `Lap.MixedPair` | Software/fpga_program.h:77-92 | from any fresh board a run of the machine with 2^31 publications between the two reads, for any two quotes with different asks, that records the bid of the first with the ask of the second under the first's number |
| `Lap.LapExact` | Software/fpga_program.h:77-92 | in all runs with at most n publications between the two reads of every recorded quote, every recorded pair is one the host published, if and only if n < 2^31 |
| `Compose.PublishMany` | Software/src/fmma_fpga.c:234-246 | n publications move TICK_SEQ by 2n modulo 2^32, leave the last quote in memory and change nothing else |
| `Fills.CpuTracked` | Software/fpga_program.h:61-76 | every instruction keeps applied fills a prefix of the reports, at most one behind |
| `Fills.ReportTracked` | Software/src/fmma_fpga.c:249-257 | so does every single store of a report, wherever the CPU is |
| `LostFill.ReportLost` | Software/src/fmma_fpga.c:249-257 | from any fresh board a run of the machine with two reports, for any two quantities, at whose end nothing waits and only the second is applied |
| `LostFill.ReportSwapped` | Software/src/fmma_fpga.c:249-257 | from any fresh board a run of the machine with one report and the next begun, for any two that differ: the CPU looks in between, nothing waits in the end, as many fills were applied as reported, but what was applied is the second and not the first |
| `Reports.CountExact` | Software/fpga_program.h:61-76 | between restarts, from a moment at which nothing waits to another, as many fills were applied as reported if and only if the CPU looked at FILL_SEQ between every two reports |
| `ReportWindow.FillsExact` | Software/fpga_program.h:61-76 | between restarts, from a moment at which nothing waits to another: if no word of an open report is stored over, the fills applied are the reports made, in order; and only if, when successive reports differ in side and quantity |
| `Reports.HeartbeatTells` | Software/fpga_program.h:55-76 | once HEARTBEAT reads anything but the value read after a report or the next, the report has been applied |
| `Fills.PositionIsNet` | Software/fpga_program.h:61-76 | the folded position is the starting position plus the net of the fills, modulo 2^32 |
| `Polls.PollPolled` | Software/src/fmma_fpga.c:263-274 | each of the three loads of a poll keeps every delivery true of the decisions published |
| `Polls.PollsAccount` | Software/src/fmma_fpga.c:259-276 | one plus missed, summed over the deliveries, is the advance of the decision count |
| `System.RunInv` | Software/fpga_program.h:17-166 | every legal interleaving keeps the whole invariant |
| `System.RunTracked` | Software/src/fmma_fpga.c:249-257 | every legal interleaving with patient reports keeps the fill tracking |
| `System.MachineRuns` | Software/fmma_sim.py:250-311 | the machine running the image follows the board act by act |
| `Results.MachineRefinesC` | Software/src/fmma_strategy.c:17-62 | in every run the decisions seen at the stores of SIGNAL_SEQ since the last restart are the C strategy's over the quotes accepted and fills consumed; the output words show its counters, position and last decision |
| `Results.TriggersCounted` | Software/fpga_program.h:99-162 | in every run SIGNAL_SEQ + REJECTS is the number of accepted quotes that moved out of the band, modulo 2^32 |
| `Results.QuotesAreGenuine` | Software/fpga_program.h:77-92 | every quote acted on is a pair the host published whole under the recorded number unless exactly a positive multiple of 2^31 publications intervened; none is used twice |
| `Results.DecisionsNameQuotes` | Software/fpga_program.h:140-151 | in every run, every decision seen at a store of SIGNAL_SEQ since the last restart has the sequence number and the side of an authentic quote, recorded in that run, that moved out of the band |
| `Results.FillsExactlyOnce` | Software/fpga_program.h:24-76 | with patient reports every report since FILL_SEQ was adopted is applied once and in order, none from before; POSITION is the start plus their net |
| `Results.PollsDeliver` | Software/src/fmma_fpga.c:259-276 | over a run the deliveries account for every decision, and the side and tick of each are those of decisions no older than its number |
| `Results.UndisturbedPoll` | Software/src/fmma_fpga.c:263-274 | a poll during which the CPU is never between the stores of a decision delivers exactly the last decision |
| `Results.PositionBounded` | Software/fpga_program.h:115-139 | with K decisions outstanding the POSITION word stays within MAX - 1 + K either way |
| `KillSwitch.AtMostOneMore` | Software/src/fmma_fpga.c:119-124 | after CFG_ENABLE = 0 at most one more decision is published, none if no enable check had passed |
| `Results.KillSwitchHolds` | Software/src/fmma_fpga.c:119-124 | the same at any moment of any run of the machine |
| `Inventory.InventoryBound` | Software/fpga_program.h:115-139 | the same bound on the position the CPU holds, and the limit itself is unchanged |
| `Overshoot.LimitOvershoot` | docs/09-risk-management.md:22 | for every positive limit and K with MAX - 1 + K < 2^31 there is an honest run of the machine, K decisions outstanding at most, that ends with POSITION at MAX - 1 + K |
| `Overshoot.LimitExact` | docs/09-risk-management.md:22 | for limits up to 2^31 - 2 and every K, the documented limit is kept in every honest run if and only if K is one or the limit is zero |
| `Script.PassStep` | Software/fpga_program.h:55-162 | left alone, a pass applies the waiting fill and then works through the new quote, and records exactly those |
| `Latency.QuoteLatency` | README.md:264 | a quote standing in memory is worked through within 140 instructions, 420 cycles, if no newer one goes out and no restart is taken; within 81 from the loop head |
| `Assembler.FirstPass` | Software/Assembler.py:187-274 | the loop computes `Scan`: symbols, items and errors |
| `Assembler.LabelsAreRight` | Software/Assembler.py:217-269 | in every accepted program each label is the address of the first word emitted at or after it, whatever constants are called |
| `Assembler.SymbolsAreRight` | Software/Assembler.py:187-274 | for every accepted program: the labels are right, each constant is the value of its expression and nothing else is in the table, if and only if every constant that takes a label's name was defined as that address |
| `Assembler.ShadowedConstant` | Software/Assembler.py:225-238 | an accepted program whose constant ends up with a label's address |
| `Assembler.ItemsInOrder` | Software/Assembler.py:239-269 | the item of each emitting line stands at the number of words emitted before it |
| `Assembler.WordsDecode` | Software/Assembler.py:281-365 | no instruction becomes HALT or undefined: each word decodes to the resolved instruction |
| `Acceptance.AcceptedExactly` | Software/Assembler.py:187-365 | a source is accepted if and only if labels are new, constants new and defined from what is known by then, operands right in number and kind, registers 0-15, immediates 0 to 2^24 - 1, data 1 to 2^32 - 1 and displacements -128 to 127; told from the lines alone |
| `Acceptance.TableExact` | Software/Assembler.py:187-274 | in every accepted source each name has in the table the address of the line it labels, or else its constant's value, told from the lines alone |
| `AsmMeaning.NamedAddress` | Software/Assembler.py:299-311 | a branch by name lands on the first word emitted at or after the label, or on the constant's address |
| `AsmMeaning.StepSimulates` | Software/Assembler.py:281-365 | at any line of any accepted program one machine step does what the line says and ends where it goes |
| `AsmMeaning.RunSimulates` | Software/Assembler.py:281-365 | for any accepted program, as long as the source stays in the program and does not overwrite it, the image simulates it |
| `AsmMeaning.PlacedHolds` | Software/fmma_sim.py:244-246 | loading puts the image where the simulation needs it |
| `Risk.RiskDesk.Fill` | Software/src/fmma_risk.c:25-63 | the struct in place follows average-cost accounting as a function, the casts of the quantity included |
| `Risk.RiskDesk.MarkTo` | Software/src/fmma_risk.c:65-72 | only the unrealised profit changes |
| `Risk.RiskDesk.MayTrade` | Software/src/fmma_risk.c:88-104 | HALTED, loss limit and stale feed each exactly under its condition, in that order; the flag is set by the loss limit and by nothing else |
| `Risk.Conservation` | Software/src/fmma_risk.c:25-63 | over any fills at non-negative prices the books equal the cash flow up to a drift only adding fills cause, upward long and downward short, each at most one less than the new position's size |
| `Risk.AddingDrift` | Software/src/fmma_risk.c:37-40 | the drift of one adding fill, with its sign |
| `Risk.AverageRounds` | Software/src/fmma_risk.c:37-40 | at any prices, negative ones included, the new average is the mean of the lots rounded toward zero |
| `Risk.QuantityExact` | Software/src/fmma_risk.c:29-40 | the drift of adding a quantity is always small if and only if the quantity is below 2^31, where the cast keeps its sign |
| `Risk.ClosingExact` | Software/src/fmma_risk.c:41-56 | a fill that reduces, closes or flips the position books its cash exactly |
| `Risk.AverageMarksPosition` | Software/src/fmma_risk.c:25-63 | from flat with positive prices the average is zero if and only if the position is |
| `Risk.MarkedPnl` | Software/src/fmma_risk.c:65-77 | the P&L after a mark is books plus position at the mid if and only if the average is set or the position is worth nothing |
| `Risk.PnlFromCash` | Software/src/fmma_risk.c:25-77 | from flat: P&L after a mark is cash plus position at the mid, up to the drift |
| `Fixed.ParseScaled` | Software/src/fmma_fixed.c:10-46 | the loops compute sign, saturated integer part and fraction, with the divisor truncated to 32 bits; an error exactly for what does not start with a number |
| `Fixed.NeverReached` | Software/src/fmma_fixed.c:30-42 | the divisor ever reaches the scale if and only if the scale is at most 4135583744 |
| `Fixed.SaturatesHigh` | Software/src/fmma_fixed.c:22-27 | below 10^9 the integer part is exact, above it stays in [10^8, 10^9) |
| `Fixed.FractionTruncates` | Software/src/fmma_fixed.c:29-42 | dropping and padding digits is rounding the fraction down at the scale's places |
| `Fixed.ClampedParseExact` | Software/src/fmma_fixed.c:10-87 | for every non-negative number of any length the clamped parse is min(trunc(value * 10^d), 2^30 - 1) |
| `Fixed.PlacesNeeded` | Software/src/fmma_fixed.c:10-87 | that holds for all numbers if and only if the scale has at least two places |
| `Fixed.Clamp` | Software/src/fmma_fixed.c:75-87 | the nearest price in range, flagged exactly when it differs from the value |
| `Fixed.FormatScaled` | Software/src/fmma_fixed.c:48-73 | the text, cut to the buffer |
| `Fixed.FormatExact` | Software/src/fmma_fixed.c:48-73 | sign exactly when negative, integer part without leading zeros, and a point with the remainder in the places of the scale; nothing else |
| `Fixed.RoundTrip` | Software/src/fmma_fixed.c:10-73 | for every scale up to 3567587328, parsing the formatted value gives it back if and only if its integer part is below 10^9 and its fraction is zero or printed with all the places that are read |
| `Fixed.PowersSurvive` | Software/src/fmma_fixed.c:59-63 | scales 10^0 to 10^9 print as many places as they read, so only the integer part matters |
| `Exec.OrderTable.Send` | Software/src/fmma_exec.c:281-351 | cooldown, dry run, credentials, slots and connection in order; what each leaves behind |
| `Exec.SendExact` | Software/src/fmma_exec.c:281-351 | an order goes out exactly if cooldown, mode, credentials, a slot and a connection allow it, into the first free slot with its side, mid and time; each refusal moves its own counter and no open slot |
| `Exec.OrderTable.SettleSlot` | Software/src/fmma_exec.c:95-119 | an inactive slot is left alone; a fill is reported with the slot's side, anything else counts as rejected; the slot closes |
| `Exec.OrderTable.OnOrderReply` | Software/src/fmma_exec.c:125-179 | the slot logic of the order callback |
| `Exec.OrderTable.OnQueryReply` | Software/src/fmma_exec.c:186-241 | the slot logic of the query callback |
| `Exec.ReplyExact` | Software/src/fmma_exec.c:125-241 | a reply closes its slot exactly if it ends the order, touches no other, and an order ended without a fill counts as rejected or as an error |
| `Exec.OrderTable.PollOrders` | Software/src/fmma_exec.c:353-396 | the poll over the eight slots in order: which are due, which are given up after sixty seconds, which are queried |
| `Exec.PollExact` | Software/src/fmma_exec.c:353-396 | every slot on its own: untouched unless due, given up when over a minute old, else queried if a connection can be had; each given up is one rejection |
| `Exec.StepSlots` | Software/src/fmma_exec.c:95-119 | only a sent order opens a slot, every other event keeps side, mid and time of the open ones; a fill is reported exactly when an open slot's order is said to be filled, with its side, one lot, and the broker's price or the mid |
| `Exec.StepConserves` | Software/src/fmma_exec.c:57-119 | sent rises by one exactly when an order goes out, filled exactly with a report, active + filled - sent never rises, and active + filled + rejected + errors - sent never falls |
| `Exec.RunBalanced` | Software/src/fmma_exec.c:95-396 | after any events filled + active <= sent <= filled + active + rejected + errors, one report per order filled and no order reported twice |
| `Exec.RunFaithful` | Software/src/fmma_exec.c:95-351 | in every run each fill report has the side of the order it closed, one lot, and the broker's price or the mid that order was sent with |
| `Exec.GoesOut` | Software/src/fmma_exec.c:281-351 | in every run that is not dry an order goes out exactly if the last went out at least the cooldown ago, there are credentials and a connection and fewer than eight orders are open |
| `Exec.SendsSpaced` | Software/src/fmma_exec.c:284-349 | with a monotone clock successive orders are at least the cooldown apart |
| `Exec.RateLimit` | Software/src/fmma_exec.c:284-349 | in every run with a monotone clock any window of W ms holds at most W / cooldown + 1 orders |
| `Stats.BucketOf` | Software/src/fmma_stats.c:10-15 | the bucket's power-of-two bounds |
| `Stats.Latency.Signal` | Software/src/fmma_stats.c:33-49 | one more sample, counted in its bucket, the sum, the minimum and the maximum, exactly when the tick is known |
| `Stats.Extremes` | Software/src/fmma_stats.c:33-49 | the maximum and minimum kept are those of the samples |
| `Stats.Latency.Percentile` | Software/src/fmma_stats.c:73-93 | for a rank from 1 to the count at least that many samples are at or below the answer, which is at most 2 or twice any value that many samples stay within; 0 acts as 1, a rank above the count as the count; never above the largest sample |
| `Stats.Latency.PercentileOf` | Software/src/fmma_stats.c:64-93 | for a fraction p, under any rounding as near as double arithmetic: all but 0.00101 of a sample and the rounding of that fraction is at or below the answer, which is at most 2 or twice any value at or below which more than that fraction less 0.00099 of a sample and the rounding lies |
| `App.HostApp.OnFill` | Software/src/fmma_app.c:47-53 | the same side and quantity to risk, fabric and software strategy |
| `App.HostApp.Act` | Software/src/fmma_app.c:56-69 | no order without consent; a refusal for good also stores CFG_ENABLE = 0 |
| `App.HostApp.OnQuote` | Software/src/fmma_app.c:71-104 | mid and mark, then the six stores of a publication, or without a fabric the software decision and what it comes to |
| `App.QuoteMarks` | Software/src/fmma_app.c:71-78 | a quote values the position at its middle and moves no money |
| `App.PositionsAgree` | Software/src/fmma_app.c:47-53 | in every run the risk position equals the software strategy's |
| `App.HaltIsForGood` | Software/src/fmma_app.c:56-69 | after a loss-limit verdict every later check is HALTED and no order is ever sent again |
| `App.SentWithConsent` | Software/src/fmma_app.c:56-69 | an order goes out if and only if there is a decision, no halt, a profit and loss above the limit, a fresh feed, and the table takes it; it is the order decided on, at the middle of the last quote; the halt flag is set exactly by a decision at the limit |
| `App.HaltExact` | Software/src/fmma_app.c:56-69 | a run that begins not halted ends halted if and only if at some decision in it realised and unrealised together were at -max_loss or below |
| `App.FillTraced` | Software/src/fmma_app.c:47-69 | every fill of a run is of one order that a decision sent out, into a slot open ever since; both positions rise by one if the decision was to buy and fall by one otherwise, at the broker's price or the middle of the last quote at sending |
| `App.NoFillNoMove` | Software/src/fmma_app.c:47-53 | without a fill no position moves |
| `Joint.PositionsMeet` | Software/src/fmma_app.c:47-53 | host program and board together: with patient reports, whenever every report is applied, the POSITION word is the risk position and the software strategy's, modulo 2^32 |
| `Joint.LossLimitStops` | Software/src/fmma_app.c:56-69 | a run that begins with a decision the loss limit forbids: whatever follows, no order is sent, that decision's included, and the fabric publishes at most one more decision |

## Left out

- Replacing the image while the CPU runs: the loader is modelled from a parked CPU.
- Words 158-161, the loop of a failed datapath probe: unreachable on this datapath, as `Safety` proves.
- The legacy datapath and legacy shifts.
- Memory barriers, mmap and real time: stores happen in program order, clocks are parameters.
- The host's ticker, reporter and poller are independent agents in `Board`; the program runs them in one thread, which allows fewer interleavings.
- Networking, TLS, JSON, configuration, logging and the command line: nothing but plumbing.
- Assembler lexing and `.include`: the model starts from parsed lines; the text of errors carries no location.
- That `trading.asm` assembles to the shipped image: the image is taken word by word.
- Signed overflow of 64-bit sums in C (`Risk`, `CStrategy`, `Stats`) and of 32-bit histogram counts: integers are unbounded there.
- Risk.RiskDesk.Fill: the long of the C code is taken as 32 bits wide, as on the board.
- Results.MachineRefinesC: the C position is kept in the int32 range and MAX_POS is not 2^31, because beyond that the C code is undefined.
- Fixed.ParseScaled: scales above 3567587328 are excluded: up to 4135583744 a long fraction overflows the 64-bit accumulator, above that the loop never ends; a NULL text is not modelled.
- ReportWindow.FillsExact: the second direction assumes that successive reports differ, because a report stored over by an equal one cannot be told from it.
- Exec.OrderTable.OnOrderReply: statuses and prices arrive parsed; connection objects are not modelled, so a late reply may name any slot.
- Tests, benchmarks, the market-maker and probe programs, and the Verilog.
