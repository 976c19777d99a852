# Verification of evm-smith's generator

evm-smith keeps a symbolic machine (gas, stack height, memory size, nonces, known call targets) while it
chooses opcodes, and exports bytecode that is meant never to underflow or overflow the stack and never to run
out of gas. This project models the generator, its cost tables and its renderer, models the EVM that the
bytecode runs on, and proves that the one keeps its promises on the other.

## How it is built

| file | content |
|---|---|
| `Words`, `Gas`, `Opcodes` | u64 arithmetic (saturating and wrapping written out), byte strings, C_mem of the Yellow Paper, the opcodes |
| `Costs`, `Exact` | the `requires`/`provides` tables in u64, and the true charge in natural numbers |
| `Addresses` | RLP of the nonce, the CREATE preimage and a decoder for it, EIP-1014; Keccak-256 is an arbitrary function |
| `Selection`, `Variants` | opcode drawing from a finite tape of numbers, the weighted choice loop, the 140 variants; spelling an opcode out in numbers, and drawing it back |
| `Renderer`, `Emitter` | rendering as functions; the loops that push into the output buffer, proved equal to them |
| `Evm` | a gas-metered EVM over bytes with nested CREATE frames; whatever the generator cannot know comes from an arbitrary `Env` |
| `Lowering`, `Parser` | rendered bytes as instructions; the parser that reads a program backwards |
| `Execution`, `OpSimulation`, `Creation`, `Opening` | the MSTORE chain, every opcode, and CREATE/CREATE2 on the EVM, with payloads that behave and with any payload |
| `Operands` | every rendered opcode executes the instruction of its name, with the operands where the EVM expects them |
| `Tightness` | the charges and stack conditions are exact, not only sufficient |
| `Symbolic` | the symbolic machine as a value, one function per operation |
| `Generator` | the symbolic machine as an object updated in place, with the source's loops, proved equal to `Symbolic` |
| `Ingestion` | what an ingestion fills in, how long generation goes on, what halting does |
| `Worklist`, `NonInterference`, `Divergence` | the exact behaviour of the repair loop; the two passes of CREATE2, and why call targets must not grow in them |
| `Ledger`, `Programs` | what a program charges, and what any run of it does, from its opcodes alone |
| `WholeRun`, `Reachable` | what one commit changes, and the invariant of every reachable machine |
| `Resources`, `Contracts`, `Guarantees` | stack, memory and gas of whole programs; the accounts they leave; what exported programs do |
| `PayloadNeeds`, `Attained`, `Deployment` | the exact worst cost of a generated payload, and exactly when it stays within its budget and deploys |
| `WorstCase` | the worst run of a whole program, and that no run leaves less gas |
| `Freshness`, `DrawLoop`, `Outcomes` | when no creation meets an existing account; the documented driver; outcomes known before the transaction |
| `Bookkeeping`, `Conservation`, `Provenance`, `Budgets` | nonces and addresses, conservation of gas, call targets and payloads at every depth, budgets |
| `Boundaries`, `ColdCalls` | where the guarantees end: counterexamples and exact conditions |

A *run* is any sequence of commands, each feeding an opcode or drawing one; commands that end in an error are
part of it, and the guarantees hold after each of them. A generated CREATE payload is recorded with the
history of its sub-machine, to any depth, so that statements about a machine cover the payloads nested in it.

The EVM here charges gas by Appendices G and H of the Yellow Paper and EIP-150, EIP-160, EIP-1153, EIP-2200,
EIP-2929 and EIP-3860, and checks stack bounds and gas before every instruction. Its environment is universally
quantified: whether a slot or account is cold, which SSTORE price applies, what called code spends. Two flags
only ever go up: `clash` (a creation met an existing account) and `foreign` (a call reached an account with code).
The guarantees on stack, memory and gas hold with `foreign` set; those on accounts hold without it.

## Results that are not what one might expect

- The guarantees hold exactly for budgets below 36028809903865861 gas (6 + 3 * 2^32 + 2^55 - 1). At that budget
  one MLOAD is charged one gas less than it costs, because the square of 2^32 words saturates
  (`Boundaries.BudgetLimitIsExact`).
- A LOG0 of 2274682968548643987 bytes is charged 3 gas, because that sum uses plain `+`
  (`Boundaries.LogChargedThree`; when the decision is still right: `Boundaries.LogDecision`).
- A sub-machine does not set aside the 6 gas and two stack slots of its RETURN tail, so a program can run out of gas
  by them (`Boundaries.TailGasNotReserved`). For one payload, exactly (`Deployment.ReachableDeploysExactly`): a
  generated payload stays within its charge if and only if two stack slots are left free at every depth and its need
  is within the charge; and it stays within its budget and deploys with it if and only if the need is within that. The
  need is what the sub-machine used and 6 gas for the tail, less the gas that its calls forward (the called accounts
  give it back) and less what the charges of nested creations exceed their own needs by. Without room for the tail at
  some depth, the payload takes more than any bound. For a whole program, exactly (`Outcomes.ProgramSafeExactly`): an
  amount of gas is enough in every environment if and only if the worst case, computed from recorded numbers
  (`WorstCase.Left`), leaves some of it.
- A call is charged 100 gas for its target, whoever that is. A machine with 120 gas accepts a hand-fed call to an
  account that is not on the access list, and its program runs out of gas (`ColdCalls.ColdTargetStarves`). The charge
  of a call covers it in every environment if and only if the target is on the access list, or has no code and the
  call forwards at least 2500 gas (`ColdCalls.CallsCoveredExactly`). Generated calls only go to accounts on the list.
- The charge for running a payload is always one gas more than the least whose all-but-one-64th covers the budget
  (`Creation.ForwardsExactly`).
- A repair before a creation lowers the budget that the creation records: after d POPs it is the share of 2 d gas
  less than what the sub-machine ran on (`Deployment.RepairedBudget`).
- A comment in src/machine.rs:207-208 says that a sub-machine may call its own address; the code gives it its
  parent's targets, and the model follows the code. The comment at src/machine.rs:667-671 says that gas bounds
  the recursion of creations; payloads are built before the gas check, so the model recurses on the tape.

## Model

| member | source | states |
|---|---|---|
| Guarantees.ExportedProgramRuns | src/machine.rs:487-656 | for every configuration, budget below the limit, tape, command sequence and environment: the exported bytes succeed, end with the symbolic stack height and memory size, use no more gas than was charged and leave the contract's nonce at 1 plus the creations, provided no payload takes more than its charge, the targets named in hand-fed calls are on the access list, and no creation meets an existing account; called accounts may have code and hand-fed payloads may deploy some, and if none do, no code outside the model runs |
| Outcomes.DrawnProgramSucceeds | src/machine.rs:314-317 | the documented driver, which draws until the first error, with hypotheses on recorded numbers, recorded addresses and existing accounts only: the transaction stops normally in the symbolic state, with at least the symbolic gas, exactly the symbolic contracts and exactly their nonces |
| Outcomes.NoCollision | src/machine.rs:377-411 | if the recorded addresses, at all depths, are distinct and not in use, no creation of the exported program or of its payloads meets an existing account |
| Guarantees.MachineInv | src/machine.rs:487-650 | every machine reachable by any commands, errors included, satisfies the invariants on charges, provenance, nonces and addresses, and so does every payload at every depth |
| Guarantees.RuntimeStateMatches | src/machine.rs:327-354 | whether or not call targets grow, the contracts created at run time are exactly the symbolic machine's, in order, and all nonces agree, when payloads, hand-fed or generated, stay within their charges and deploy within their budgets, hand-named targets are on the access list without code, and no creation meets an existing account |
| Contracts.ProgramAccounts | src/machine.rs:377-411 | the same over the opcodes of any program: the deployed contracts are the recorded ones with the recorded nonces, none existed before and no two are the same |
| Guarantees.ReturnTailDeploys | src/machine.rs:872-905 | the hand-fed payload of the repository's tests stays within any charge of 6 gas and deploys with any budget of 6 |
| Guarantees.AmpleMachineDeploys | src/machine.rs:681-738 | ample recorded numbers meet the hypotheses on payloads |
| Guarantees.SnugIsThrifty | src/machine.rs:466-485 | snug payloads stay within their charges even where called accounts have code |
| Resources.ProgramSpends | src/machine.rs:606-618 | no run of a program takes more than was charged for it, or faults with that much gas, whatever code the called and created accounts have |
| Programs.ProgramShape | src/machine.rs:606-633 | whatever the payloads do, a run that does not fault has the recorded stack height and memory size and counts the recorded creations |
| PayloadNeeds.SnugIsGood | src/machine.rs:658-703 | comparing recorded numbers depth by depth is enough for no run of a payload, in any environment and with any gas, to cost its parent more than the charge |
| PayloadNeeds.AmpleIsFunded | src/machine.rs:681-703 | with no more taken than the budget, the payload also deploys, with the recorded nonce |
| Guarantees.SnugMachineIsSound | src/machine.rs:681-738 | snug payloads meet the hypothesis of the whole-run theorem |
| DrawLoop.DriverIsCommands | src/machine.rs:314-317 | the documented loop is n draws that succeed and the first that fails, and ends in the state they leave |
| DrawLoop.DrawnProgramRuns | src/machine.rs:314-317 | draw until the first error, export, run with the same gas: if payloads stay within their charges and deploy within their budgets and no creation meets an existing account, it stops normally in the symbolic state with the symbolic contracts and nonces, after at most half as many ingestions as there is gas |
| DrawLoop.DrawsAreBounded | src/machine.rs:314-317 | the driver's successful ingestions cost at least 2 gas each |
| DrawLoop.IngestNextCosts | src/machine.rs:600-649 | one successful ingestion of a drawn opcode takes at least 2 gas, and no ingestion gives gas back |
| DrawLoop.DrawnMachine | src/machine.rs:487-593 | drawing alone never halts the machine, never calls an account outside the known targets, and takes in no payload but its sub-machines' |
| Outcomes.ProgramSafeExactly | src/machine.rs:487-656 | an amount of gas is enough for an exported program with generated payloads, no EXP, distinct recorded addresses and hand-named targets without code on the access list, in every environment that brings no collision, if and only if its worst case leaves some of it, whatever payloads were charged |
| Outcomes.LeftIsSafe | src/machine.rs:487-656 | with EXP and repeated addresses too: if the worst case leaves something, every run succeeds and leaves at least that |
| WorstCase.ProgramLeaves | src/opcodes/requires.rs:340-389 | no run of a program leaves less gas than the worst case, in which a payload that faults takes all it was forwarded; the worst environment leaves exactly that |
| WorstCase.LeftMonotone | src/opcodes/requires.rs:340-389 | more gas never leaves less |
| ColdCalls.RunsCall | src/opcodes/requires.rs:398-451 | every rendered call, whatever is known of its target, faults exactly when its price is not there, and otherwise takes its price and what the called code spends |
| ColdCalls.CallsCoveredExactly | src/opcodes/requires.rs:398-451 | the charge of a call covers it if and only if the target is on the access list, or has no code and at least 2500 gas is forwarded |
| ColdCalls.ColdTargetStarves | src/opcodes/requires.rs:398-416 | a concrete hand-fed call that is accepted with all the gas there is, and faults in every environment where its target is not on the access list and has no code |
| WholeRun.RunReturnTail | src/machine.rs:469-484 | the tail takes exactly 6 gas and two stack slots and returns nothing |
| OpSimulation.RunOp | src/opcodes/requires.rs:14-453 | the rendered code of any opcode but a creation ends with the height and memory size of the tables, within the exact charge; it faults only when given less than that |
| Tightness.ChargeIsReached | src/opcodes/requires.rs:14-451 | the exact charge of every opcode but creations, less the gas that a call to an account without code gives back, is what its code costs in the worst environment, and the code faults exactly when it is given less; so nothing is overcharged |
| Tightness.RoomIsNeeded | src/machine.rs:740-772 | without the room that the constraints ask for, the rendered code of any opcode faults in every environment, so no repair is made in vain |
| Tightness.FilledCallFits | src/machine.rs:513-591 | a filled-in call without memory operands fits if and only if there are 159 gas (CALL) or 157 (the others) |
| Creation.RunCreate | src/opcodes/requires.rs:340-389 | a rendered creation whose payload behaves costs its overhead plus what the payload needs, and deploys when that is within the budget |
| Creation.ForwardedCovers | src/opcodes/requires.rs:350-353 | all but one 64th of ceil(64 b / 63) gas or more is at least b (EIP-150) |
| Creation.ForwardsExactly | src/opcodes/requires.rs:340-353 | the charge for running the payload is one gas more than the least that forwards the budget, and the budget is the configured share of the gas rounded down |
| Creation.OverheadIs | src/opcodes/requires.rs:340-366 | the charge without the sub-call part is the chain with its expansion, the pushes and the instruction |
| Execution.ChainLaysCode | src/opcodes/render.rs:255-268 | for a payload of any length the MSTORE chain leaves it in memory, zeros up to the next word, all higher bytes as they were, for 9 gas a word and the expansion |
| Exact.AcceptsExactly | src/opcodes/requires.rs:173-466 | below the budget limit the saturating test accepts an opcode if and only if its true charge fits, and then charges exactly that and grows memory to the true size |
| Exact.ExpansionCases | src/opcodes/requires.rs:456-461 | an affordable expansion is charged exactly; an unaffordable one is refused by both computations |
| Exact.SameRegion | src/opcodes/provides.rs:20-115 | memory enters the charge only through the price of expanding it to the needed size, and `provides` grows it to that size |
| Operands.InstructionReached | src/opcodes/render.rs:10-422 | the rendered bytes of any opcode run out of gas or reach one instruction, the one of its name, with the operands in the order of the Yellow Paper on top of an unchanged stack, and a payload at the start of memory |
| Operands.StackedIsExpected | src/opcodes/render.rs:10-422 | the operand pushes of every opcode leave exactly the operands that the EVM takes, first on top |
| Lowering.RenderEncodes | src/opcodes/render.rs:10-251 | every render is the byte encoding of operand pushes and one instruction, after the chain for creations |
| Lowering.DisassembleAll | src/machine.rs:652-656 | disassembly distributes over renders: no PUSH immediate crosses an opcode boundary |
| Parser.ParseExactly | src/opcodes/render.rs:10-423 | reading instructions backwards gives an opcode list if and only if they are its rendering |
| Parser.RecoverBytecode | src/machine.rs:652-656 | the opcodes come back from the exported bytes, payload lengths included despite the zero padding |
| Parser.BytecodeInjective | src/machine.rs:652-656 | different opcode lists export different bytes |
| Parser.PayloadRead | src/opcodes/render.rs:255-310 | the payload is read back from its chain without the padding |
| NonInterference.ProbeEqualsFinal | src/machine.rs:705-738 | for every state, salt and tape the recorded CREATE2 address is the EIP-1014 address of the payload that is emitted |
| NonInterference.TwinIngest | src/machine.rs:426-464 | machines that differ only in address, caller, nonces and history, with fixed targets, stay equal in everything else and give the same result, through nested creations |
| NonInterference.TwinGenerate | src/machine.rs:454-462 | the same over a whole generation loop |
| Ingestion.GenerateIngests | src/machine.rs:454-463 | a sub-machine ingests what its generator draws, opcode after opcode, up to and including the first that fails, or until nothing more can be drawn |
| Ingestion.PlaceholderBecomes | src/machine.rs:497-519 | a placeholder creation becomes the renders of such a sub-machine and the tail, recorded with its nonce at the address that the EVM derives from the payload or the nonce; it is refused exactly without a source to fork or when the renders leave no room for the tail |
| Ingestion.PlaceholderSettled | src/machine.rs:497-649 | ingesting the placeholder is repairing that creation, or returning its error with nothing taken but from the source |
| Ingestion.SourceEnds | src/machine.rs:309-317 | without input every draw and every placeholder fails with InputExhausted and changes nothing |
| Ingestion.SubStarts | src/machine.rs:426-453 | a sub-machine starts empty, with its share of the gas rounded down, its creator as caller, and the creator's targets and settings but for termination and growth |
| Ingestion.CallRepairs | src/machine.rs:372-591 | ingesting a placeholder call is repairing the call to the picked target with a quarter of the gas |
| Ingestion.CallPicked | src/machine.rs:372-591 | whichever target the source picks is called, when that call finds room and gas |
| Ingestion.NextIsFeed | src/machine.rs:309-317 | when the source spells out an opcode that weights and limits allow, drawing is feeding that opcode |
| Ingestion.HandFedCreate | src/machine.rs:377-411 | a creation fed with its payload is recorded at the address the EVM derives, with nonce 1, the creator's nonce goes up, and targets grow only if configured |
| Ingestion.TooLongExactly | src/machine.rs:594-599 | a payload fed by hand is refused as too long if and only if it exceeds 49152 bytes, and then nothing changes |
| Ingestion.HaltsExactly | src/machine.rs:487-492 | HaltConditionEncountered is returned if and only if the machine is halted |
| Ingestion.StopHalts | src/machine.rs:488-492 | STOP halts a machine that may terminate and is skipped by one that may not |
| Ingestion.HaltedStays | src/machine.rs:488-490 | no command changes a halted machine, but for numbers drawn |
| Ingestion.NeverTerminates | src/machine.rs:491-493 | where termination is not allowed no command, drawn or fed, ever puts a halting opcode into the program |
| Divergence.GrowingCodeDiverges | src/machine.rs:932-1013 | with growing targets two machines that differ in address export the same code, after a hand-fed CREATE and a call to the contract it makes, if and only if they derive the same address for it |
| Worklist.RepairExact | src/machine.rs:600-649 | with d items missing or in excess: exactly d helpers, the opcode, and one more helper unless it halts, with pushes drawn for all d+1; with none: the opcode alone; the whole final state is given |
| Worklist.RepairStops | src/machine.rs:634-647 | out of gas or source after i helpers: those helpers stay committed and nothing else, in the order in which the loop examines opcode, source and helper |
| Worklist.RepairStopsAtOnce | src/machine.rs:634-647 | out of gas or source before any helper: nothing is committed |
| Worklist.RepairDropsHelper | src/machine.rs:600-649 | with gas for the opcode and none for the helper that trails it, the opcode stays committed and the result is OutOfGas |
| Symbolic.Turn | src/machine.rs:602-647 | one turn of the worklist keeps its shape and lowers the measure (rank, deficit, queue shape) |
| Reachable.IngestInv | src/machine.rs:487-650 | one ingestion, in Ok or in error, keeps the invariant of reachable machines |
| Reachable.GenerateInv | src/machine.rs:454-463 | a sub-machine keeps it too, and changes neither call targets nor halts |
| Reachable.MaterializeFits | src/machine.rs:497-593 | what materialization predicts of a creation holds, and a filled-in call goes to a known target |
| Reachable.AcceptedPercentage | src/machine.rs:421-424 | with a percentage above 100 no creation is ever accepted |
| Reachable.CommitAddressed | src/machine.rs:377-411 | a commit keeps the recorded addresses equal to those that the EVM derives from the nonce at commit |
| Provenance.NoncesCountCreations | src/machine.rs:250-297 | unless an address came up twice: contract nonce 1 plus its creations, caller nonce 1, created nonces as recorded, and every creation at the address the EVM derives from the nonce at that point |
| Provenance.NonceStaysSmall | src/machine.rs:367-370 | unless a creation was recorded at the contract's own address, its nonce is at most 1 plus a 32000th of the gas, so bumping it never overflows |
| Provenance.RootCallsAreSafe | src/machine.rs:526-591 | every call goes to the caller, to a contract that an earlier opcode of the program created, or to an account named by hand |
| Provenance.NestedCallsAreSafe | src/machine.rs:437-452 | every call in a generated payload, however deeply nested, goes to the caller or to a contract the root created before it |
| Provenance.NestedPayloads | src/machine.rs:466-485 | every generated payload at every depth is its sub-machine's renders in order and the tail, within 49152 bytes, with a nonce of 1 plus its creations |
| Provenance.RootPayloadsFit | src/machine.rs:594-599 | every payload in the program, by hand or generated, is within 49152 bytes |
| Provenance.StraysAreWritten | src/machine.rs:526-593 | a call target outside the known ones was named in a hand-fed opcode |
| Conservation.GasIsConserved | src/machine.rs:607-618 | in every reachable machine the gas that is gone is the sum of the opcodes' charges plus the price of the memory there is; replaying the program alone gives gas, memory and height |
| Ledger.ExpansionsTelescope | src/opcodes/requires.rs:173-460 | memory charges add up to a difference of prices over any program |
| Conservation.NothingIsTakenBack | src/machine.rs:606-633 | committed opcodes stay, memory never shrinks and gas never grows, whatever comes later |
| Budgets.BudgetsShrinkWithDepth | src/machine.rs:421-463 | the budget behind a creation at depth k is at most gas * (percentage / 100)^k, for any budget and percentage |
| Deployment.ReachableDeploysExactly | src/machine.rs:681-738 | for every generated payload of every reachable machine: it stays within its charge if two stack slots are left free at every depth and its need is within the charge; without EXP and with distinct recorded addresses only if, and the same for staying within its budget and deploying with it |
| Deployment.DeploysExactly | src/machine.rs:466-485 | the if and only if, over all environments and any gas: staying within the charge, and staying within the budget and deploying with it |
| Deployment.UnrepairedDeploysExactly | src/machine.rs:681-703 | a creation with room on the stack at materialization stays within its budget and deploys with it if and only if every depth left two stack slots and the gas its sub-machine kept, the gas its calls forward and the slack of nested charges add up to 6 |
| Deployment.RepairedBudget | src/machine.rs:600-649 | a creation that d POPs made room for records the share of 2 d gas less, below what its sub-machine ran on for percentages from 50 |
| PayloadNeeds.NeedIs | src/machine.rs:466-485 | the need of a payload is a sum of recorded numbers |
| PayloadNeeds.SnugIsLow | src/machine.rs:466-485 | it is at most what the sub-machine used and 6, when nested payloads are snug |
| PayloadNeeds.LowMeets | src/machine.rs:466-485 | a payload with room for the tail at every depth never takes more than its need, in any environment and with any gas, and returns with that much |
| Attained.LowReaches | src/machine.rs:466-485 | in the worst environment, with plenty of gas, it takes exactly that |
| Attained.LeafTakesExactly | src/machine.rs:466-485 | a payload that creates nothing faults in the worst environment if and only if it is given less than its need, and otherwise takes exactly that |
| Attained.HighFaults | src/machine.rs:466-485 | a payload whose sub-machine left no two stack slots faults in every run |
| Attained.NotLowIsWasteful | src/machine.rs:466-485 | and one with such a payload nested in it, at any depth, takes more than any bound |
| Freshness.DistinctKeepsApart | src/machine.rs:377-411 | a payload with distinct recorded addresses, none in use, meets no existing account and makes none but the recorded ones |
| Boundaries.TailGasNotReserved | src/machine.rs:466-485 | a concrete program, accepted to the last unit of gas, that runs out of gas by its payload's tail |
| Boundaries.BudgetLimitIsExact | src/opcodes/requires.rs:456-461 | all exported programs are covered by their charges if and only if the budget is below the limit |
| Boundaries.LogDecision | src/opcodes/requires.rs:194-248 | a LOG is decided rightly if and only if its charge does not both leave 64 bits and fit after wrapping around |
| Boundaries.LogChargedThree | src/opcodes/requires.rs:194-204 | a LOG0 that costs more than 2^64 gas and is charged 3 |
| Addresses.CreateAddressIsYellowPaper | src/machine.rs:782-793 | the hashed bytes are the short-list RLP of (caller, nonce), so the address is the EVM's |
| Addresses.NonceIsRlp | src/machine.rs:795-815 | the nonce encoding is RLP of the minimal big-endian string |
| Addresses.PreimageRoundTrip | src/machine.rs:782-793 | a decoder recovers caller and nonce from the hashed bytes |
| Addresses.Create2RoundTrip | src/machine.rs:721 | the hashed bytes of CREATE2 are 85: the prefix 0xFF, the sender, the salt and the hash of the payload, each recovered by a decoder |
| Addresses.Create2Injective | src/machine.rs:721-793 | preimages of CREATE and CREATE2 never meet, and two of CREATE2 only with equal fields |
| Addresses.PreimageInjective | src/machine.rs:782-793 | different (caller, nonce) pairs are never hashed from the same bytes |
| Selection.SelectFamily | src/opcodes/weights.rs:236-247 | the loop always finds a family, the one whose weight interval holds the roll, and the roll never goes below zero |
| Selection.RollsOfFamily | src/opcodes/weights.rs:227-250 | exactly w of the total rolls choose a family of weight w |
| Selection.VariantsPartition | src/opcodes/weights.rs:54-104 | every variant index belongs to exactly one family and offset |
| Selection.DrawChooses | src/opcodes/weights.rs:227-250 | a roll in a family's weight interval and an offset of the family draw exactly the variant at that offset, and take nothing more |
| Selection.DrawFallsBack | src/opcodes/weights.rs:231-234 | without any weight every index is drawn by itself |
| Selection.ShareOfVariant | src/opcodes/weights.rs:227-250 | of all (roll, offset) pairs of the draw, exactly as many give a variant as its family has weight, each with the variant's own offset |
| Selection.UniformIsFlat | src/opcodes/weights.rs:145-159 | under uniform weights every one of the 140 variants is drawn with chance 1 in 140 |
| Variants.VariantIs | src/opcodes/mod.rs:404-640 | the opcode drawn for an index has that index, read off its byte and operands: different indices give different opcodes |
| Variants.SpellsOut | src/opcodes/mod.rs:404-640 | every opcode that generation may produce is produced by its index and the numbers that spell out its operands |
| Variants.FamilyIs | src/opcodes/weights.rs:54-104 | the family behind every index is that of what its opcode does |
| Variants.DrawableExactly | src/opcodes/mod.rs:348-376 | an opcode can be drawn if and only if it is a placeholder or plain opcode with operands within the limits, of a family with weight (or none has weight) |
| Variants.EveryPush | src/opcodes/mod.rs:363-383 | every push of 1 to 32 bytes can be drawn for a repair |
| Variants.EveryIndex | src/machine.rs:372-375 | every call target can be picked |
| Variants.EveryFork | src/machine.rs:145-170 | a fork can give any two sources, in the order generator, repair |
| Selection.DrawVariantIndex | src/opcodes/weights.rs:227-250 | the drawing with its loop computes the choice that `Selection.DrawChooses` and `Selection.ShareOfVariant` speak of |
| Selection.NthVariant | src/opcodes/mod.rs:404-640 | generated opcodes never halt, carry placeholders for creations and calls, and keep all memory offsets and lengths within the limits; PUSH variants push the right width |
| Emitter.EmitInitCodeSetup | src/opcodes/render.rs:255-268 | the chunk loop appends the stores of all chunks |
| Emitter.EmitCreate | src/opcodes/render.rs:275-289 | chain, size, offset and value of CREATE |
| Emitter.EmitCreate2 | src/opcodes/render.rs:294-310 | the same with the salt below |
| Emitter.EmitLog | src/opcodes/render.rs:403-415 | the topic loop pushes topics from last to first |
| Emitter.EmitProgram | src/machine.rs:652-656 | the export loop gives all renders and a final STOP |
| Generator.RenderInitCode | src/machine.rs:466-485 | the op-by-op limit check accepts exactly the payloads of at most 49152 bytes with their tail |
| Generator.Machine.WithContext | src/machine.rs:273-297 | the fresh machine: nonces of caller and contract, given targets |
| Generator.Machine.FromSource | src/machine.rs:251-271 | the root machine, its caller's nonce bumped |
| Generator.Machine.BumpNonce | src/machine.rs:367-370 | one nonce goes up by one, no other changes |
| Generator.Machine.RecordCreatedContract | src/machine.rs:377-411 | bump, record and, where configured, extend the targets |
| Generator.Machine.Charge | src/machine.rs:606-618 | the pop and push loops leave a stack of ones of the right height |
| Generator.Machine.CommitOp | src/machine.rs:606-633 | charge, record and append are one commit |
| Generator.Machine.Resolve | src/machine.rs:600-649 | the worklist loop ends in the state and result of the repair function |
| Generator.Machine.BuildGeneratedSubmachine | src/machine.rs:426-464 | the generation loop ends in the state that `Ingestion.GenerateIngests` speaks of, and leaves this machine alone |
| Generator.Machine.GenerateInitCode | src/machine.rs:681-703 | payload, address and nonce of a CREATE |
| Generator.Machine.GenerateCreate2InitCode | src/machine.rs:705-738 | payload, address and nonce of a CREATE2; its two payloads are proved equal where the source only asserts it in debug builds |
| Generator.Machine.PickCallableAddress | src/machine.rs:372-375 | a target of the list, or exhausted input |
| Generator.Machine.MaterializeOp | src/machine.rs:497-593 | placeholders filled in as `Ingestion.PlaceholderBecomes` and `Ingestion.CallRepairs` say |
| Generator.Machine.Ingest | src/machine.rs:487-650 | the whole ingestion: state and result |
| Generator.Machine.IngestNext | src/machine.rs:314-317 | draw and ingest |
| Generator.Machine.Drive | src/machine.rs:314-317 | the documented loop reaches the state of `DrawLoop.DriverIsCommands` and exports it |

## Left out

- src/runner.rs, src/bin/fuzz.rs, src/state_test.rs: processes, files, JSON, signatures and the revm harness are I/O or libraries.
- The internals of `fastrand` and `arbitrary`: both sources are an abstract finite tape of numbers. A draw takes numbers off it, a fork two disjoint parts, and an empty tape is exhausted input. The `rng` source never runs dry; runs on it that end are runs on some tape.
- Keccak-256: an arbitrary function from bytes to words. Nothing assumes it to be injective; what is needed of addresses is asked of the recorded ones.
- `created_contracts` and `nonce_snapshot` sort keys of the nonce map; the map is modelled, the sorting is not.
- Generator.Machine.BumpNonce: the source panics at a nonce of 2^64 - 1, where the model stays; each creation costs 32000 gas, so the contract's nonce comes near it in no machine that recorded no creation at the contract's own address (`Provenance.NonceStaysSmall`).
- Debug builds panic where a LOG charge leaves 64 bits; the model wraps around, as release builds do.
- Guarantees.ExportedProgramRuns: hand-fed LOG opcodes of 2^60 bytes or more are excluded, since their charge can wrap around; `Boundaries.LogDecision` says when.
- Deployment.DeploysExactly: as `Outcomes.ProgramSafeExactly`, of payloads with EXP, whose price depends on values that are not modelled, and of payloads with a repeated address, which the EVM refuses, only the sufficient half is stated (`PayloadNeeds.LowDeploys`, `Outcomes.LeftIsSafe`).
- Called code outside the model spends any part of the forwarded gas and returns any bytes, but does not call back into the contract, so that the contract's nonce and the access list stay as they are.
- The EVM's call depth limit of 1024, values of arithmetic, storage and environment instructions, gas refunds, value transfers, and the cost of the transaction itself. Jumps, REVERT and other bytes the generator never emits end a modelled frame in `Left`, about which nothing is claimed.
- The 64-bit overflow of `usize` lengths: payloads are shorter than 2^64 bytes.
- The named weight profiles other than the uniform one: all statements hold for any weights.
