# A model of the Qwertycoin core

This project models the parts of the Qwertycoin node where a mistake would corrupt money, data or
communication, and proves what they promise.

**The main chain.** A `Blockchain` keeps a sequence of blocks and, derived from it, the transaction map, the
spent key images, the per-amount output vectors, the multisignature flags, the block index and three explorer
indexes. Pushing, popping, rolling back and switching maintain all of it incrementally. `DerivedState`, `Rules`
and `Ledger` specify these operations on values. `Places` proves what the lookups of the input checks find, and exactly
when one throws. `Steps`, `Reorganisation` and `Switching` prove what each operation leaves and exactly when it can be
undone; `Conservation` proves what every operation keeps whatever fails; `Definedness`, `Leftovers` and `Roots` show
where no index is out of range and no pop looks for an unknown transaction, and `Runs` puts it together for whole runs.
`BlockchainObject` is the class with the loops of the original, proved against the specification. The consequences are
stated without the checks of the specification: `Supply` is conservation of coins and what a coinbase pays, `Spending`
no double spend, `Headers` that blocks are linked, at their heights and in time, `Signatures` that inputs are signed for
by unlocked outputs of the chain, `OutputOrder` and `MultisigOrder` the order of the output vectors and what a global
index finds, and `Records` what the transaction map and the explorer indexes hold. `TransactionChecks` shows that what enters the pool satisfies what the ledger assumes,
`Arrival` models the size test of arriving alternative blocks, and `Examples` holds concrete chains: a run that meets
the premises, and the cases where the code does not undo what it did.

**Arithmetic.** `WideArithmetic` and `Penalty` prove the 64-bit code for products, quotients, proof of work and
penalized rewards equal to plain integers; `MinerTransaction` does so for the amounts of a miner transaction and
`DifficultyWindow` for the blocks a difficulty is computed from.

**Codecs.** `Base58`, `VarintCodec` and `Address` prove the round trips in both directions, or exactly when one
of them fails.

**Protocols.** `BlockingQueue` is a transition system over all interleavings. `FileLayout` and `FileMappedVector`
follow an update of a file-backed vector change by change, with a history of the disk that says what is recovered
after a stop at each point. `BlockIndexing` bounds how far a synchronisation falls back, and `Shuffle` proves the
sparse shuffle a permutation.

What the model takes as given:

- A hash names the object it is the hash of, so equal hashes mean equal objects.
- Signatures, unlock times, proof of work, versions, governance share, median and base reward are arbitrary functions of
  what the code reads, the fields of `Rules`. The lookups in front of the signatures are modelled: which outputs a ring
  or a multisignature input names, and in which block they are looked for. The clock is any clock that does not run
  backwards.
- The pool is a set of transactions that passed `check_tx_semantic`; taking and adding lose nothing.
- A block is claimed about when the code is defined on it (`Defined`): it has fewer than 65535 transactions with at
  most 65535 outputs each, since the code counts in 16 bits (`Countable`); and in the checkpoint zone, where the code
  does not look at multisignature inputs, the outputs they name exist (`ReferencesExist`), since the code then indexes
  a vector with them. Outside the zone the checks ensure this. The size limit and the median size are below 2^32.
- A file is below 2^64 bytes, and capacities and offsets are not wrapped.

Where the code does not undo what it did. All three cases are conditions on the data at hand, and none is assumed away:

- In the checkpoint zone a block may spend a multisignature output again. Popping it clears the flag that an earlier
  block had set. Pops, rollbacks, refusals and failed switches leave exactly the old state with the flags cleared of
  what they touched (`RefusedClears`, `PopToClears`, `SwitchResult`), so they restore it if and only if that was
  unspent. Outside the zone it always is, whatever happened in the zone below. `ZoneExample` is such a block.
- A block refused for its size keeps its transactions recorded. `FailsForSize` is the guard: all checks before the size
  pass and the size is above the limit. What is left is never restored by a rollback (`OversizeNeverRestored`), which
  makes `SwitchAllOrNothing` exact. `OversizeExample` is such a block, and `SwitchExample` a run in which a switch
  loses a block because of it, with alternative blocks that passed the size test when they arrived.
- Outside the zone the check of an input throws if it gets to an output of the block that is being pushed, since that
  block is not in the chain yet (`IsThrown`, and `ThrownIffOwn` for what it means). No one catches the exception: the
  transactions recorded so far stay recorded, those taken from the pool are lost, and a switch is not rolled back
  (`LeavesTransactions`, `PushConserves`, `ThrownNeverRestored`). `ThrowExample` is such a block.

On what a block leaves that failed for its size or by an exception, a later input check can index past the transactions
of a block, which is undefined: `UndefinedExample` is such a run. Nothing else is undefined above the zone
(`EveryRunIsDefined`, an if-and-only-if), and a run whose transactions name only outputs of blocks that it leaves alone
neither throws nor is undefined, whatever fails for its size (`BackwardRunIsDefined`). Such leftovers can also mislead a
ring to an output of another amount (`AmountExample`): that the outputs have the amount of the input is claimed for the
allowed runs (`RunIsSigned`) and for inputs that name outputs of blocks which stay (`RootedIsSigned`).

After every run, these included, no transaction is held twice, none is lost but by an exception, the coins add up, no
key image of the chain is spent twice, above the zone no multisignature output is, every input there is signed for,
blocks are linked and in time, and the indexes match the chain (`RunConserves`, `RunConservesSupply`, `RunSpendsOnce`,
`RunSpendsMultisigsOnce`, `RunIsSigned`, `RunIsLinked`, `EveryRunIsKept`). That the derived
state equals a rebuild is claimed for the runs whose steps are allowed, which is exactly when each step keeps it so
(`StepIsExact`), and outside the zone exactly when nothing fails for its size or by an exception (`CleanRunIsAllowed`).

## Model

| member | source | states |
|---|---|---|
| `DerivedState.RemoveKeyOutputsUndoes` | lib/CryptoNoteCore/Blockchain.cpp:3059-3161 | removing the key outputs of a transaction last to first gives back the per-amount vectors it was added to, with a vector that becomes empty erased again |
| `DerivedState.RemoveMultisigOutputsUndoes` | lib/CryptoNoteCore/Blockchain.cpp:3059-3161 | the same for multisignature outputs |
| `DerivedState.UnmarkUndoesMark` | lib/CryptoNoteCore/Blockchain.cpp:3032-3038 | clearing the usage flags of a set of multisignature outputs undoes setting them if and only if none of them was set before |
| `DerivedState.ClearedIsSame` | lib/CryptoNoteCore/Blockchain.cpp:3143-3151 | clearing flags changes nothing if and only if none of them was set |
| `DerivedState.UnapplyClears` | lib/CryptoNoteCore/Blockchain.cpp:3059-3161 | popTransaction right after pushTransaction gives the state before, down to erased empty vectors, with the flags of the spent multisignature outputs cleared, also when others were cleared in between |
| `DerivedState.UnapplyUndoesApply` | lib/CryptoNoteCore/Blockchain.cpp:2995-3161 | for a new transaction with new key images, popTransaction undoes pushTransaction on every container if and only if every multisignature output it spends was unspent |
| `DerivedState.SpendableUndo` | lib/CryptoNoteCore/Blockchain.cpp:3059-3161 | for a transaction whose inputs can be spent, popping after pushing is the identity |
| `DerivedState.PushableIsPushed` | lib/CryptoNoteCore/Blockchain.cpp:2995-3057 | a transaction with fresh, distinct key images is pushed and never rejected, whether or not its multisignature outputs are spent already, which is what makes ignoring the result safe |
| `DerivedState.NewIsRecorded` | lib/CryptoNoteCore/Blockchain.cpp:2995-3057 | on every state, a transaction with new and distinct key images and distinct multisignature inputs never makes pushTransaction throw: it is recorded, or refused without effect because it is recorded already |
| `DerivedState.PushedIff` | lib/CryptoNoteCore/Blockchain.cpp:2995-3057 | pushTransaction succeeds if and only if the transaction is not recorded, repeats neither a key image nor a multisignature output, and no key image of it is spent |
| `DerivedState.ThrewLeaves` | lib/CryptoNoteCore/Blockchain.cpp:3014-3030 | what an exception of the key-image rollback leaves: the transaction is recorded, of its key images exactly those in front of the last input of another kind before the clash are spent, and nothing else changed |
| `DerivedState.RecordCleared` | lib/CryptoNoteCore/Blockchain.cpp:3032-3052 | flags that were cleared before do not change what recording a transaction does, but that its own flags are set |
| `DerivedState.RejectionUndoes` | lib/CryptoNoteCore/Blockchain.cpp:3000-3030 | reads the branches of pushTransaction back: a rejected transaction leaves the state unchanged if and only if every input in front of the clashing key image is a key input. The work is in InsertKeyImages and EraseKeyImages, which prove it of the loops; inside pushBlock the case is excluded by the checks (NewIsRecorded) |
| `DerivedState.RejectionExample` | lib/CryptoNoteCore/Blockchain.cpp:3014-3030 | a multisignature input followed by a spent key image makes the rollback throw and leaves the state changed |
| `Ledger.UnappliedClears` | lib/CryptoNoteCore/Blockchain.cpp:3163-3173 | popTransactions after the pushTransaction calls of a block, however many were made, gives the state before it with the flags of their multisignature inputs cleared |
| `Ledger.UndoneIffUnspent` | lib/CryptoNoteCore/Blockchain.cpp:2860-2915 | so it restores the state if and only if none of the multisignature outputs they spend was spent before |
| `Ledger.UnappliedUndoesApplied` | lib/CryptoNoteCore/Blockchain.cpp:2860-2915 | for transactions that spend unspent outputs it is the identity |
| `Ledger.CheckedIsSpendable` | lib/CryptoNoteCore/Blockchain.cpp:2365-2432 | outside the checkpoint zone a transaction that passes the input checks on a faithful state is new and has fresh spends, whatever the pool holds |
| `Ledger.CheckedBlock` | lib/CryptoNoteCore/Blockchain.cpp:2860-2892 | so outside the zone all pushTransaction calls of a block succeed, one after the other |
| `Ledger.NewIsPushable` | lib/CryptoNoteCore/Blockchain.cpp:2860-2892 | inside the zone too the call succeeds for new transactions, though their multisignature outputs are only known to exist |
| `Ledger.NewBlockIsPushable` | lib/CryptoNoteCore/Blockchain.cpp:2860-2892 | so inside and outside the zone all calls for a block of new transactions succeed |
| `Ledger.LoadedIsNew` | lib/CryptoNoteCore/Blockchain.cpp:3517-3538 | a block whose transactions come from the pool names new, pairwise different transactions |
| `Ledger.CoinbaseIsNew` | lib/CryptoNoteCore/Blockchain.cpp:1445-1488 | the coinbase of a block at a new height cannot already be in the transaction map |
| `Ledger.UnspentIsNew` | lib/CryptoNoteCore/Blockchain.cpp:3000-3004 | a transaction whose inputs are not spent cannot already be in the transaction map |
| `Ledger.RebuildExtends` | lib/CryptoNoteCore/Blockchain.cpp:636-682 | rebuilding from one more block is rebuilding from the others and replaying its transactions |
| `Ledger.RebuildPushes` | lib/CryptoNoteCore/Blockchain.cpp:636-682 | replaying an accepted block is the same as pushing it |
| `Ledger.ChainFacts` | lib/CryptoNoteCore/Blockchain.cpp:636-682 | the state rebuilt from an accepted chain keeps no empty vector and marks every input of every recorded transaction as spent |
| `Ledger.InitialIsGood` | lib/CryptoNoteCore/Blockchain.cpp:636-682 | the empty chain with empty indexes satisfies the invariant |
| `Places.AppliedPlaced` | lib/CryptoNoteCore/Blockchain.cpp:3040-3052 | while a block is pushed, every recorded output is in a block of the chain, at the transaction and of the kind the record says, or is an output of one of its own transactions recorded so far |
| `Places.ChainPlaced` | lib/CryptoNoteCore/Blockchain.cpp:636-682 | every output of a rebuilt state is in a block of the chain |
| `Places.MissingIsOwn` | lib/CryptoNoteCore/Blockchain.cpp:2737-2740 | so on a faithful state the lookup of a recorded output fails if and only if the output is of an earlier transaction of the block that is being pushed |
| `Places.ScanThrows` | lib/CryptoNoteCore/SwappedVector.h:346-348 | the scan of a ring throws if and only if it gets past members that all pass to one whose block is missing |
| `Places.ThrowsIffReachesOwn` | lib/CryptoNoteCore/Blockchain.cpp:2449-2560 | the check of an input throws if and only if it is outside the checkpoint zone, the input is unspent, and the check gets to an output of its own block |
| `Places.HeldInput` | lib/CryptoNoteCore/Blockchain.cpp:3175-3250 | an input that names only outputs of blocks which stay is checked without an exception and without an index past the transactions of a block, whatever else is recorded |
| `Steps.IndexesExtend` | lib/CryptoNoteCore/BlockchainIndices.cpp:289-309 | adding a block to the three explorer indexes and the block index gives what a rebuild over the longer chain gives |
| `Steps.RemoveUndoesAdd` | lib/CryptoNoteCore/BlockchainIndices.cpp:133-159 | removing a block from the indexes undoes adding it |
| `Steps.IndexesShrink` | lib/CryptoNoteCore/BlockchainIndices.cpp:311-336 | removing the last block from the indexes gives what a rebuild over the shorter chain gives |
| `Steps.FreshCounterNeeded` | lib/CryptoNoteCore/BlockchainIndices.cpp:358-363 | since clear keeps the counter, a rebuild of the generated-transactions index is right if and only if the counter was zero or there are no blocks |
| `Steps.PushAccepted` | lib/CryptoNoteCore/Blockchain.cpp:2918-2971 | an accepted block extends the chain by its entry and the invariant holds again |
| `Steps.VerdictOf` | lib/CryptoNoteCore/Blockchain.cpp:2758-2956 | which outcome a block that can be loaded has, by the guards of the branches: refused for its size, left by an exception, accepted or else refused |
| `Steps.ThrownIffOwn` | lib/CryptoNoteCore/Blockchain.cpp:2864-2880 | pushBlock is left by an exception if and only if some transaction, after all checks in front of it passed, has an input whose check gets to an output of the block itself |
| `Steps.LeavesTransactions` | lib/CryptoNoteCore/Blockchain.cpp:2860-2897 | a block refused for its size or left by an exception leaves its coinbase in the transaction map, where it was not before |
| `Steps.RefusedClears` | lib/CryptoNoteCore/Blockchain.cpp:2860-2915 | what a block leaves that is refused, neither for its size nor by an exception: the flags of the multisignature outputs that its recorded transactions spend are cleared, and nothing else |
| `Steps.RefusalUndoes` | lib/CryptoNoteCore/Blockchain.cpp:2860-2915 | so it leaves nothing behind if and only if these outputs were unspent |
| `Steps.AcceptedIsSteady` | lib/CryptoNoteCore/Blockchain.cpp:2742-2993 | an accepted block, also after flags were cleared, and what popping it again leaves |
| `Steps.TouchedOutside` | lib/CryptoNoteCore/Blockchain.cpp:2410-2421 | outside the checkpoint zone pushBlock touches only unspent outputs, accepted or not |
| `Steps.PushKeepsGood` | lib/CryptoNoteCore/Blockchain.cpp:2742-2956 | pushBlock either extends the chain by exactly this block and keeps the invariant, or fails; a failure leaves everything but the clock unchanged, and keeps the invariant, if and only if it was neither for the size nor by an exception of an input check and spent no multisignature output again |
| `Steps.HarmlessOutsideZone` | lib/CryptoNoteCore/Blockchain.cpp:2860-2897 | outside the checkpoint zone a failure leaves nothing behind if and only if it was neither for the size nor by an exception, both read off the guards |
| `Steps.RemoveClears` | lib/CryptoNoteCore/Blockchain.cpp:3279-3297 | removeLastBlock gives what a rebuild from the shorter chain computes, with the flags of the multisignature outputs the block spent cleared |
| `Steps.RemoveGivesRebuild` | lib/CryptoNoteCore/Blockchain.cpp:3279-3297 | so it leaves exactly what a rebuild computes, and keeps the invariant, if and only if these outputs were unspent below the block |
| `Steps.PopClears` | lib/CryptoNoteCore/Blockchain.cpp:2973-2993 | popBlock gives what a rebuild from the shorter chain computes, with the transactions back in the pool and those flags cleared |
| `Steps.PopGivesRebuild` | lib/CryptoNoteCore/Blockchain.cpp:2973-2993 | so it leaves exactly that rebuild, and keeps the invariant, if and only if the multisignature outputs the block spent were unspent below it |
| `Steps.PushUndoesPop` | lib/CryptoNoteCore/Blockchain.cpp:2742-2756 | pushing the last block again on the state below it, at any later time, is accepted and restores the state |
| `Reorganisation.FitsOutsideZone` | lib/CryptoNoteCore/Blockchain.cpp:2894-2897 | outside the checkpoint zone a block fits when it can be counted, respects the size limit and is not left by an exception |
| `Reorganisation.PopUndoesPush` | lib/CryptoNoteCore/Blockchain.cpp:2973-2993 | popBlock undoes an accepted pushBlock, down to every index and the pool, if and only if the multisignature outputs the block spends were unspent |
| `Reorganisation.PopToClears` | lib/CryptoNoteCore/Blockchain.cpp:1238-1246 | popping down to the split height gives the rebuild of the prefix with all transactions back in the pool and the flags of all their multisignature inputs cleared |
| `Reorganisation.PopToKeepsGood` | lib/CryptoNoteCore/Blockchain.cpp:1238-1246 | so it gives that rebuild, and keeps the invariant, if and only if none of these outputs was spent below the split |
| `Reorganisation.RemoveToKeepsGood` | lib/CryptoNoteCore/Blockchain.cpp:3272-3277 | rolling back to a height ends at that prefix; the invariant is kept, with the state a rebuild of the prefix, if and only if none of the multisignature outputs the removed blocks spend was spent below |
| `Reorganisation.UnspentOutsideZone` | lib/CryptoNoteCore/Blockchain.cpp:2410-2421 | a block outside the checkpoint zone spends only multisignature outputs unspent below it |
| `Reorganisation.UndoableOutsideZone` | lib/CryptoNoteCore/Blockchain.cpp:1238-1246 | so blocks outside the zone can always be undone, whatever the blocks in the zone spend |
| `Reorganisation.PopToClearsPushAll` | lib/CryptoNoteCore/Blockchain.cpp:1248-1269 | after pushing blocks up to the first refusal, if that is neither for the size nor by an exception, popping gives the old state with the flags of everything cleared that was touched |
| `Reorganisation.PopToUndoesPushAll` | lib/CryptoNoteCore/Blockchain.cpp:1248-1269 | so popping restores the state if and only if no block that got its turn failed for its size or by an exception, and nothing was touched that was spent before |
| `Reorganisation.LeftBehind` | lib/CryptoNoteCore/Blockchain.cpp:2894-2897 | after a failure for size, popping the blocks pushed before it does not remove what it left in the transaction map |
| `Reorganisation.ThrownBehind` | lib/CryptoNoteCore/Blockchain.cpp:2864-2880 | after an exception the coinbase of the next height is recorded, and popping the blocks pushed before does not remove it |
| `Reorganisation.PushAllUndoesPopTo` | lib/CryptoNoteCore/Blockchain.cpp:1076-1102 | pushing the original blocks on the state below them is accepted throughout and restores the state, at any later time |
| `Switching.PushCleared` | lib/CryptoNoteCore/Blockchain.cpp:2365-2432 | a block that is accepted is also accepted when multisignature flags were cleared, with the same entry |
| `Switching.RestoresCleared` | lib/CryptoNoteCore/Blockchain.cpp:1076-1102 | so the rollback restores the chain also when flags were cleared, and sets those again that the old blocks set |
| `Switching.SwitchResult` | lib/CryptoNoteCore/Blockchain.cpp:1104-1302 | if no alternative block fails for its size or by an exception, a switch ends with the prefix and the whole alternative chain, or with the old state in which exactly the flags are cleared that it touched and the old blocks do not set |
| `Switching.RebuiltAt` | lib/CryptoNoteCore/Blockchain.cpp:636-682 | in a rebuilt transaction map every index leads to its transaction |
| `Switching.GoodHasNothingLeft` | lib/CryptoNoteCore/Blockchain.cpp:2894-2897 | a state with the invariant holds nothing that a failure for size left, since a block with all of it would be too large |
| `Switching.OversizeNeverRestored` | lib/CryptoNoteCore/Blockchain.cpp:1248-1269 | if an alternative block fails for its size, the switch fails and the rollback never restores the state |
| `Switching.ThrownNeverRestored` | lib/CryptoNoteCore/Blockchain.cpp:1248-1269 | if an alternative block is left by an exception, nothing rolls back: the switch ends in a state that is neither the old one nor one with the invariant |
| `Switching.SwitchAllOrNothing` | lib/CryptoNoteCore/Blockchain.cpp:1104-1302 | exactly when a switch is all or nothing, inside the checkpoint zone and outside: if and only if no block that gets its turn fails for its size or by an exception and, if one is refused, nothing was released that was spent |
| `Switching.SwitchOutsideZone` | lib/CryptoNoteCore/Blockchain.cpp:1104-1302 | outside the checkpoint zone: if and only if no alternative block that gets its turn fails for its size or by an exception |
| `Switching.BackwardNeverThrown` | lib/CryptoNoteCore/Blockchain.cpp:2864-2880 | blocks whose transactions name, outside the zone, only outputs held before the first of them are never left by an exception |
| `Switching.SwitchWithinLimits` | lib/CryptoNoteCore/Blockchain.cpp:1104-1302 | a condition to check before the switch: every alternative block respects the size limit of its height, outside the zone it names only outputs of the blocks below the split, and what it spends is unspent or spent by the blocks it replaces, or all are outside the zone |
| `Switching.SwitchKeepsGood` | lib/CryptoNoteCore/Blockchain.cpp:1248-1302 | without a failure for size or an exception, the invariant holds after a successful switch if and only if the alternative blocks would have been accepted on the rebuilt state, and after a failed one if and only if the old state is restored |
| `Switching.SwitchIsExact` | lib/CryptoNoteCore/Blockchain.cpp:1104-1302 | so a switch keeps the invariant and is all or nothing if and only if both conditions hold |
| `Definedness.SteadyIsHandled` | lib/CryptoNoteCore/Blockchain.cpp:2742-2956 | pushBlock is defined, with its input checks and the undoing of a refused block, on states in which at most flags were cleared: no pop looks for an unknown transaction and no index is out of range; an exception of an input check is one of its outcomes |
| `Definedness.GoodPoppable` | lib/CryptoNoteCore/Blockchain.cpp:2973-2993 | so is popping any number of blocks from a state with the invariant |
| `Definedness.SwitchIsHandled` | lib/CryptoNoteCore/Blockchain.cpp:1104-1302 | so is a switch with its rollback, as long as no alternative block fails for its size; if one throws there is no rollback |
| `Leftovers.UnapplyOwns` | lib/CryptoNoteCore/Blockchain.cpp:3059-3161 | a transaction whose inputs are marked as spent, and shared with no other, can be popped without an index out of range, and the others keep theirs |
| `Leftovers.PushLingers` | lib/CryptoNoteCore/Blockchain.cpp:2742-2956 | outside the checkpoint zone pushBlock leads from a state with leftovers to such a state, whatever fails, and is defined if and only if its input checks do not index past the transactions of a block |
| `Leftovers.PopLingers` | lib/CryptoNoteCore/Blockchain.cpp:2973-2993 | popBlock is defined on every such state above the base, and leads to one |
| `Leftovers.SwitchLingers` | lib/CryptoNoteCore/Blockchain.cpp:1104-1302 | the same for a switch with its rollback as for pushBlock |
| `Leftovers.SwitchHandledOutside` | lib/CryptoNoteCore/Blockchain.cpp:1104-1302 | outside the zone a switch from a state with the invariant is defined if and only if, should an alternative block fail for its size, the input checks of the rollback do not index past the transactions of a block |
| `Leftovers.NeverGood` | lib/CryptoNoteCore/Blockchain.cpp:1076-1102 | after a failure for size no rollback leads to a state with the invariant, not even by losing blocks or by an exception |
| `Leftovers.SwitchGoodOutsideZone` | lib/CryptoNoteCore/Blockchain.cpp:1104-1302 | outside the zone a switch keeps the invariant if and only if no alternative block that gets its turn fails for its size or by an exception |
| `Roots.UnapplyKeepsOutputs` | lib/CryptoNoteCore/Blockchain.cpp:3059-3161 | popping a transaction of a block above the base removes no output of the base, also on states with leftovers |
| `Roots.PushRooted` | lib/CryptoNoteCore/Blockchain.cpp:2742-2956 | so a block whose transactions name only outputs of the base is pushed without an exception and without an index past the transactions of a block, on every such state |
| `Roots.SwitchRooted` | lib/CryptoNoteCore/Blockchain.cpp:1104-1302 | and so is a whole switch with its rollback, whatever fails for its size |
| `Leftovers.SpentIsRefused` | lib/CryptoNoteCore/Blockchain.cpp:2365-2432 | on every state, a block with a key image that is spent already is not accepted |
| `Leftovers.OversizeSwitchLosesBlocks` | lib/CryptoNoteCore/Blockchain.cpp:1248-1269 | when the first alternative block fails for its size and shares a key-spending transaction with the block it replaces, the rollback fails too and the disconnected blocks are gone from the chain |
| `Arrival.ArrivesIff` | lib/CryptoNoteCore/Blockchain.cpp:1632-1671 | an alternative block passes the size test if and only if its coinbase claims a height other than zero and its own size with that of its known transactions is within the limit of that height |
| `Arrival.KnownNeverFails` | lib/CryptoNoteCore/Blockchain.cpp:1660-1671 | an alternative block that passes the size test on arrival with all its transactions known never fails for its size |
| `Arrival.OneBlockNeverFails` | lib/CryptoNoteCore/Blockchain.cpp:1660-1671 | a switch to the one block that has just arrived never fails for its size, since what it can load was known |
| `Arrival.OneBlockSwitch` | lib/CryptoNoteCore/Blockchain.cpp:1810-1835 | so outside the zone such a switch is all or nothing if and only if the block is not left by an exception |
| `Runs.StepKeepsGood` | lib/CryptoNoteCore/Blockchain.cpp:2691-2735 | each allowed push, pop, rollback, switch and pool change keeps the invariant |
| `Runs.StepIsExact` | lib/CryptoNoteCore/Blockchain.cpp:2742-2993 | for every kind of step the condition is exact: it keeps the invariant, and a switch is all or nothing, if and only if the step is allowed |
| `Runs.SwitchIsExactOutsideZone` | lib/CryptoNoteCore/Blockchain.cpp:1104-1302 | outside the zone a switch keeps the invariant if and only if it is allowed |
| `Runs.AllowedOutsideZone` | lib/CryptoNoteCore/Blockchain.cpp:2742-2993 | outside the zone a step is allowed if and only if no block of it that gets its turn fails for its size or by an exception |
| `Runs.CleanRunIsAllowed` | lib/CryptoNoteCore/Blockchain.cpp:2691-2735 | so the runs whose every state equals a rebuild are, outside the zone, exactly the runs without such a failure |
| `Runs.EveryRunIsRebuilt` | lib/CryptoNoteCore/Blockchain.cpp:636-682 | after every run of allowed steps the derived state equals what rebuildCache computes and the explorer indexes equal a rebuild from fresh ones |
| `Conservation.TakenOnce` | lib/CryptoNoteCore/Blockchain.cpp:3517-3538 | taking a block's transactions from the pool removes each of them exactly once |
| `Conservation.PushConserves` | lib/CryptoNoteCore/Blockchain.cpp:2742-2756 | pushBlock keeps the bag of transactions of pool and chain together, but for the transactions of a block that is left by an exception, which it loses, each once; so it keeps the bag if and only if it does not throw |
| `Conservation.PushKeepsKept` | lib/CryptoNoteCore/Blockchain.cpp:2742-2956 | on every reachable state, whatever fails: the chain is made of accepted entries, its transactions are in the transaction map, no transaction is held twice, recorded transactions share no key image, the indexes match |
| `Conservation.PopConserves` | lib/CryptoNoteCore/Blockchain.cpp:2973-2993 | so does popBlock, on every reachable state |
| `Conservation.PopKeepsKept` | lib/CryptoNoteCore/Blockchain.cpp:2973-2993 | and it keeps the same invariant |
| `Conservation.RemoveKeepsKept` | lib/CryptoNoteCore/Blockchain.cpp:3279-3297 | so does removeLastBlock |
| `Conservation.GoodIsKept` | lib/CryptoNoteCore/Blockchain.cpp:636-682 | the invariant of the clean states implies the invariant of every reachable state |
| `Conservation.SwitchConserves` | lib/CryptoNoteCore/Blockchain.cpp:1104-1302 | a switch duplicates no transaction of pool and chain and loses exactly those of a block left by an exception, of the alternative chain or of the rollback, even when its rollback fails and blocks are lost |
| `Runs.EveryRunIsKept` | lib/CryptoNoteCore/Blockchain.cpp:2691-2735 | after every run, whatever fails in it, the explorer indexes and the block index match the chain, every transaction of the chain is in the transaction map, and none is held twice by pool and chain |
| `Runs.RunConserves` | lib/CryptoNoteCore/Blockchain.cpp:2691-2756 | over every run of pushes, pops and switches, whatever fails in it, no transaction is duplicated, and pool and chain together lose exactly those of the blocks left by an exception: they stay the same if and only if no step throws |
| `Runs.EveryRunIsDefined` | lib/CryptoNoteCore/Blockchain.cpp:2691-2993 | every step of a run above the checkpoint zone is defined, whatever fails in it, if and only if no input check indexes past the transactions of a block |
| `Runs.BackwardRunIsDefined` | lib/CryptoNoteCore/Blockchain.cpp:2691-2993 | which none does, and none throws, in a run whose transactions name only outputs of the blocks that the run leaves alone |
| `Runs.SwitchKeepsTransactions` | lib/CryptoNoteCore/Blockchain.cpp:1202-1236 | on every state, a switch that succeeds keeps every transaction hash of the main chain, because the alternative chain must contain the abandoned ones |
| `Runs.TransactionsNeverLeave` | lib/CryptoNoteCore/Blockchain.cpp:2691-2735 | over every run without pops and rollbacks, from any state, the transactions of the main chain stay there unless the rollback of a switch loses blocks |
| `Runs.AllowedLosesNone` | lib/CryptoNoteCore/Blockchain.cpp:1076-1102 | which no allowed run does |
| `Runs.NeverLeaveOutsideZone` | lib/CryptoNoteCore/Blockchain.cpp:2691-2735 | outside the zone no transaction leaves the main chain along a run of additions and switches in which no block that gets its turn fails for its size or by an exception |
| `Examples.OversizeExample` | lib/CryptoNoteCore/Blockchain.cpp:2894-2897 | a concrete block whose refusal for its size changes the state |
| `Examples.ThrowExample` | lib/CryptoNoteCore/SwappedVector.h:346-348 | a concrete block, outside every zone, that spends a multisignature output of its own coinbase: the check throws, the coinbase stays in the transaction map and the transaction is lost from the pool |
| `Examples.UndefinedExample` | lib/CryptoNoteCore/Blockchain.cpp:2737-2740 | a concrete run of three pushes, outside every zone: the output that a block refused for its size left behind is named by a ring, and its lookup indexes past the transactions of the block that took its place |
| `Examples.SwitchExample` | lib/CryptoNoteCore/Blockchain.cpp:1104-1302 | a concrete run, outside every zone: two alternative blocks pass the size test on arrival, the switch to them fails for the size of the first, the rollback fails as well and the disconnected block is lost |
| `Examples.ZoneExample` | lib/CryptoNoteCore/Blockchain.cpp:2410-2421 | in the zone a concrete block that spends a multisignature output again is accepted, and popping it breaks the invariant |
| `Examples.SampleRun` | lib/CryptoNoteCore/Blockchain.cpp:2742-2756 | the premises can be met: a run that pushes a first block and pops it again ends where it began |
| `Examples.AmountExample` | lib/CryptoNoteCore/Blockchain.cpp:2894-2897 | a run after which a ring of amount zero is over an output of amount seven, because of what a block refused for its size has left: why the amounts are claimed for allowed runs and for inputs that name kept outputs |
| `Supply.FeesAreDifferences` | lib/CryptoNoteCore/Blockchain.cpp:2864-2892 | the 64-bit fee total of a block is the true difference of its inputs and outputs, modulo 2^64 |
| `Supply.EmissionIsCoinbaseMinusFees` | lib/CryptoNoteCore/Blockchain.cpp:1490-1558 | when the coinbase claims exactly the reward, the change of the emission is its outputs minus the fees, modulo 2^64 |
| `Supply.BlockPays` | lib/CryptoNoteCore/Blockchain.cpp:1490-1558 | every block in the chain after any run has a coinbase that pays the share and exactly what the penalty leaves of base reward and fee, modulo 2^64, and a size that is the sum of the sizes of its transactions, within the limit of its height and twice the median |
| `Supply.AmountsTotal` | lib/CryptoNoteCore/Blockchain.cpp:1490-1512 | the sums of inputs and outputs of a transaction are the sums of the amounts, base inputs counting nothing |
| `Supply.BlockSupply` | lib/CryptoNoteCore/Blockchain.cpp:2899-2925 | an accepted block adds its outputs minus its inputs to the generated coins, modulo 2^64 |
| `Supply.SupplyIsConserved` | lib/CryptoNoteCore/Blockchain.cpp:2918-2925 | in every chain of accepted entries the generated coins are all outputs minus all inputs modulo 2^64, and exactly so if and only if that difference fits 64 bits |
| `Supply.WorkIsSummed` | lib/CryptoNoteCore/Blockchain.cpp:2919-2923 | the cumulative difficulty of the top block is the sum of the difficulties of all blocks modulo 2^64 |
| `Supply.RunConservesSupply` | lib/CryptoNoteCore/Blockchain.cpp:2742-2993 | both hold of the chain after every run, whatever fails in it |
| `Spending.ImagesSpentOnce` | lib/CryptoNoteCore/Blockchain.cpp:2388-2391 | no key image occurs in two inputs of an accepted chain, inside the checkpoint zone and outside, and the spent key images are exactly those of the chain |
| `Spending.KeptSpendsOnce` | lib/CryptoNoteCore/Blockchain.cpp:2388-2391 | on every reachable state, whatever failed before, no key image of the chain is spent twice and all of them are marked as spent |
| `Spending.RunSpendsOnce` | lib/CryptoNoteCore/Blockchain.cpp:2742-2993 | so after every run; and after a run of allowed steps no other key images are marked, the usage flags mark exactly the multisignature outputs the chain spends, and no block outside the zone spends one that was spent before |
| `Spending.LingeringSpendsOnce` | lib/CryptoNoteCore/Blockchain.cpp:3175-3250 | on every state with leftovers, the blocks above the base spend no multisignature output twice and none that the base spends |
| `Spending.RunSpendsMultisigsOnce` | lib/CryptoNoteCore/Blockchain.cpp:2742-2993 | after every run above the zone, whatever fails in it and whatever is left behind, no block above the zone spends a multisignature output that is spent before it in the chain; without a zone nothing at all is spent twice |
| `Spending.BlockSpends` | lib/CryptoNoteCore/Blockchain.cpp:2860-2892 | if each transaction of a block spends multisignature outputs unspent at its turn, these spends are pairwise different and different from all before them, and the flags record exactly them |
| `Spending.ChainIsReferenced` | lib/CryptoNoteCore/Blockchain.cpp:3032-3038 | in a valid chain the multisignature outputs that blocks in the zone spend exist at their turn |
| `Spending.FlagsAreSpends` | lib/CryptoNoteCore/Blockchain.cpp:3032-3038 | the usage flags mark exactly the multisignature outputs the chain spends, assuming of the zone only that its references exist |
| `Spending.MultisigsSpentOnce` | lib/CryptoNoteCore/Blockchain.cpp:2410-2421 | a block outside the zone spends no multisignature output that was spent before it or twice in it, whatever the blocks in the zone spend |
| `Spending.NoDoubleSpend` | lib/CryptoNoteCore/Blockchain.cpp:3000-3038 | if the blocks in the zone too spend only unspent multisignature outputs, no two inputs of the chain spend the same key image or output |
| `OutputOrder.OutputsExtend` | lib/CryptoNoteCore/Blockchain.cpp:3040-3052 | recording the outputs of a transaction extends each per-amount vector in order, by exactly its key outputs of that amount |
| `OutputOrder.VectorsAreOrdered` | lib/CryptoNoteCore/Blockchain.cpp:3040-3052 | each per-amount vector is strictly ordered by block, transaction and output, and holds exactly the key outputs of the chain with that amount |
| `OutputOrder.GlobalIndexFindsOutput` | lib/CryptoNoteCore/Blockchain.cpp:3042-3045 | the stored global index of an output is its position modulo 2^32 in the vector, and leads back to it if and only if the position is below 2^32 |
| `OutputOrder.PositionIsUnique` | lib/CryptoNoteCore/Blockchain.cpp:3042-3045 | no other position of the vector holds the same output |
| `MultisigOrder.MultisigsAreOrdered` | lib/CryptoNoteCore/Blockchain.cpp:3040-3052 | each multisignature vector of a rebuilt chain is strictly ordered by block, transaction and output, and holds exactly the multisignature outputs of the chain with that amount |
| `MultisigOrder.MultisigIndexFindsOutput` | lib/CryptoNoteCore/Blockchain.cpp:3046-3050 | the stored global index of a multisignature output is its position modulo 2^32 in that vector, and leads back to it if and only if the position is below 2^32 |
| `MultisigOrder.RebuildTraded` | lib/CryptoNoteCore/Blockchain.cpp:636-682 | the multisignature vectors of a rebuild are the key vectors of a rebuild of the chain with the two kinds of outputs exchanged |
| `OutputOrder.FindEndOfAllowedIndex` | lib/CryptoNoteCore/Blockchain.cpp:2015-2033 | the loop returns the exact partition point between matured and later outputs of an ordered vector |
| `OutputOrder.RelativeToAbsolute` | lib/CryptoNoteCore/CryptoNoteFormatUtils.cpp:630-637 | each absolute offset is the running sum of the relative ones modulo 2^32 |
| `OutputOrder.AbsoluteGrows` | lib/CryptoNoteCore/CryptoNoteFormatUtils.cpp:630-637 | as long as the sum stays below 2^32 the last absolute offset is the largest |
| `OutputOrder.ScanOutputKeys` | lib/CryptoNoteCore/Blockchain.h:461-510 | the scan, outcome by outcome: it fails, throws or passes as specified, and where it passes it has collected the keys of the ring in order and reports at most the height of the last member |
| `OutputOrder.LargestIsNewest` | lib/CryptoNoteCore/Blockchain.h:502-506 | when the last absolute offset is the largest, the last ring member is the newest in every ordered vector |
| `OutputOrder.LastMemberDecides` | lib/CryptoNoteCore/Blockchain.h:502-506 | reporting the height of the last member only is right for every vector if and only if its absolute offset is the largest |
| `OutputOrder.NoWrapMeansLargest` | lib/CryptoNoteCore/Blockchain.h:502-506 | it is the largest when the offsets do not wrap, and an example where they wrap and it is not |
| `Headers.UnfitIsRefused` | lib/CryptoNoteCore/Blockchain.cpp:2758-2858 | a block that is known, does not follow the last block, does not carry the next height in its one base input, is too far in the future, has no difficulty or an output sum of 64 bits or more is refused, and nothing but the clock changes |
| `Headers.KeptIsLinked` | lib/CryptoNoteCore/Blockchain.cpp:2758-2858 | in every chain that any run leaves, each block names the hash of the block below it, its coinbase has its height as the one base input, and no block occurs twice |
| `Headers.RunIsLinked` | lib/CryptoNoteCore/Blockchain.cpp:2742-2993 | both over every run, whatever fails in it, and no block of the chain is later than the clock and the limit allow |
| `Headers.GoodIsTimely` | lib/CryptoNoteCore/Blockchain.cpp:2573-2583 | every state of the invariant, the empty chain among them, is one that such a run may start from |
| `Signatures.RingPassesIff` | lib/CryptoNoteCore/Blockchain.cpp:2449-2560 | the ring check of the specification passes if and only if the running sums of the offsets are positions of unlocked key outputs in the chain and the ring of their keys is signed |
| `Signatures.PassesIff` | lib/CryptoNoteCore/Blockchain.cpp:2365-2432 | outside the checkpoint zone an input passes if and only if it is unspent and signed for; in the zone a ring passes if and only if it is not empty and unspent, and a multisignature input always |
| `Signatures.UnsignedIsRefused` | lib/CryptoNoteCore/Blockchain.cpp:2860-2892 | outside the zone a block with an input that is spent or not signed for at its turn is not accepted |
| `Signatures.KeptIsSigned` | lib/CryptoNoteCore/Blockchain.cpp:2860-2892 | in every chain that any run leaves, each input outside the zone is signed for by unlocked outputs of the blocks below it, as many as it names and of the right kind |
| `Signatures.ChainIsSigned` | lib/CryptoNoteCore/Blockchain.cpp:2860-2892 | in every valid chain these are the outputs of its own amount at the positions it names among all outputs of that amount below the block |
| `Signatures.RootedIsSigned` | lib/CryptoNoteCore/Blockchain.cpp:2860-2892 | so they are for an input that names only outputs of blocks which stay, whatever failed blocks have left recorded |
| `Signatures.RunIsSigned` | lib/CryptoNoteCore/Blockchain.cpp:2742-2993 | both over every run: signed for after every run, and by outputs of the right amount after every run whose steps are allowed |
| `Records.TransactionsAreIndexed` | lib/CryptoNoteCore/Blockchain.cpp:3000-3013 | in a valid chain the transaction map holds exactly the transactions of its blocks, each with its block and its place there |
| `Records.IndexesAreStored` | lib/CryptoNoteCore/Blockchain.cpp:3040-3057 | each transaction of a block is stored with one global index per output, but with none if it was recorded before and its push was refused |
| `Records.PaymentsAreListed` | lib/CryptoNoteCore/BlockchainIndices.cpp:40-54 | with explorer indexes, a valid chain has each of its transactions listed once under its payment id, and nothing else |
| `Records.IndexesSay` | lib/CryptoNoteCore/BlockchainIndices.cpp:289-309 | the indexes of a chain without repeated blocks: the hash at each height, each block once under its timestamp, and for each height the number of all transactions up to it |
| `BlockchainObject.Blockchain.constructor` | lib/CryptoNoteCore/Blockchain.cpp:636-682 | a new blockchain is the empty one and satisfies the invariant |
| `BlockchainObject.Blockchain.InsertKeyImages` | lib/CryptoNoteCore/Blockchain.cpp:3014-3030 | which key images are spent after the insertion loop and its rollback, and whether it succeeds, rejects or throws |
| `BlockchainObject.Blockchain.EraseKeyImages` | lib/CryptoNoteCore/Blockchain.cpp:3017-3023 | the rollback erases the images inserted so far, and throws at the last input that is not a key input |
| `BlockchainObject.Blockchain.MarkMultisigs` | lib/CryptoNoteCore/Blockchain.cpp:3032-3038 | the loop over the inputs sets exactly the flags of the spent multisignature outputs |
| `BlockchainObject.Blockchain.AddOutputs` | lib/CryptoNoteCore/Blockchain.cpp:3040-3052 | the loop over the outputs appends each to the vector of its amount and kind and stores the position it gets there modulo 2^32; MultisigOrder and OutputOrder prove what that position is in the chain |
| `BlockchainObject.Blockchain.PushTransaction` | lib/CryptoNoteCore/Blockchain.cpp:2995-3057 | the containers and the outcome after pushTransaction, for every input, are those of the specification |
| `BlockchainObject.Blockchain.PopTransaction` | lib/CryptoNoteCore/Blockchain.cpp:3059-3161 | the containers after popTransaction are those of the specification |
| `BlockchainObject.Blockchain.PopTransactions` | lib/CryptoNoteCore/Blockchain.cpp:3163-3173 | popping the transactions of a block, last first, on every state on which it is defined |
| `BlockchainObject.Blockchain.CheckTxInput` | lib/CryptoNoteCore/Blockchain.cpp:2449-2560 | the ring of a key input passes if and only if the key image is in the domain, each running sum of its offsets modulo 2^32 is a position in the vector of its amount where an unlocked key output of the chain stands, and the ring of their keys in order is signed; it throws where the scan does |
| `BlockchainObject.Blockchain.ValidateInput` | lib/CryptoNoteCore/Blockchain.cpp:3175-3250 | a multisignature input passes if and only if the output it names in the vector of its amount is unspent, is an unlocked multisignature output of the chain, requires as many signatures as the input has, and is signed for; it throws if and only if the output is unspent and its block is not in the chain |
| `BlockchainObject.Blockchain.CheckTransactionInputs` | lib/CryptoNoteCore/Blockchain.cpp:2365-2432 | the loop passes exactly the transactions whose every input passes; otherwise the first input that does not pass decides whether it fails or throws |
| `BlockchainObject.Blockchain.CheckHeader` | lib/CryptoNoteCore/Blockchain.cpp:2758-2858 | the checks in front of any change accept a block if and only if it is not in the chain, follows the last block or the null hash, is not later than the clock allows, has a difficulty, has one base input at the next height and outputs that fit 64 bits, and passes what is left abstract |
| `BlockchainObject.Blockchain.PushTransactions` | lib/CryptoNoteCore/Blockchain.cpp:2860-2892 | the transaction loop with its 16-bit counter, on states with leftovers too: it records all transactions, with their sizes and 64-bit fees, exactly when all checks pass; otherwise it undoes what it recorded up to the first bad one, or leaves it if that check throws |
| `BlockchainObject.Blockchain.ValidateMinerTransaction` | lib/CryptoNoteCore/Blockchain.cpp:1490-1558 | the coinbase is accepted if and only if the share is paid, the size is at most twice the median and the outputs equal base reward and fee after the penalty on both, modulo 2^64; the change of the emission is that minus the fee modulo 2^64 |
| `BlockchainObject.Blockchain.PushLoaded` | lib/CryptoNoteCore/Blockchain.cpp:2758-2956 | the four outcomes: refused with the recorded transactions undone, left by an exception with them recorded, refused for the size with everything left recorded, or extended by the new entry |
| `BlockchainObject.Blockchain.LoadTransactions` | lib/CryptoNoteCore/Blockchain.cpp:3517-3538 | all transactions of the block are taken from the pool, or none are |
| `BlockchainObject.Blockchain.SaveTransactions` | lib/CryptoNoteCore/Blockchain.cpp:3540-3549 | the transactions are back in the pool |
| `BlockchainObject.Blockchain.PushBlock` | lib/CryptoNoteCore/Blockchain.cpp:2742-2756 | state and outcome of the whole pushBlock are those of the specification, on every state and block on which the code is defined; an exception passes by the return of the transactions to the pool |
| `BlockchainObject.Blockchain.RemoveFromIndexes` | lib/CryptoNoteCore/Blockchain.cpp:3288-3296 | the explorer indexes after a removal |
| `BlockchainObject.Blockchain.RemoveLastBlock` | lib/CryptoNoteCore/Blockchain.cpp:3279-3297 | the whole state after removeLastBlock, wherever it is defined |
| `BlockchainObject.Blockchain.PopBlock` | lib/CryptoNoteCore/Blockchain.cpp:2973-2993 | the whole state after popBlock, wherever it is defined |
| `BlockchainObject.Blockchain.RollbackBlockchainTo` | lib/CryptoNoteCore/Blockchain.cpp:3272-3277 | the loop ends with the chain up to the given height; from a state with the invariant it is kept if and only if the removed blocks can be undone |
| `BlockchainObject.Blockchain.LacksNothing` | lib/CryptoNoteCore/Blockchain.cpp:1202-1236 | the nested loops accept exactly the alternative chains that contain every transaction of the abandoned blocks |
| `BlockchainObject.Blockchain.Disconnect` | lib/CryptoNoteCore/Blockchain.cpp:1238-1246 | the down-counting loop ends, pops to the split height and returns the disconnected blocks in order; from a state with the invariant it is kept if and only if they can be undone |
| `BlockchainObject.Blockchain.Connect` | lib/CryptoNoteCore/Blockchain.cpp:1248-1269 | the blocks are pushed up to the first refusal or exception, for whatever reason |
| `BlockchainObject.Blockchain.Restore` | lib/CryptoNoteCore/Blockchain.cpp:1076-1102 | the rollback pops to the split height and pushes the original blocks back up to the first refusal or exception, also on leftovers |
| `BlockchainObject.Blockchain.SwitchToAlternative` | lib/CryptoNoteCore/Blockchain.cpp:1104-1302 | the whole switch with its rollback is the one of the specification, wherever it is defined, and throws if and only if a push in it does; from a state with the invariant it is all or nothing if and only if no block fails for its size or by an exception and nothing spent is released |
| `BlockchainObject.Blockchain.RebuildCache` | lib/CryptoNoteCore/Blockchain.cpp:636-682 | the loops, with their 16-bit counters, compute exactly the derived state that the incremental operations maintain |
| `BlockchainObject.Blockchain.LoadBlockchainIndices` | lib/CryptoNoteCore/Blockchain.cpp:3442-3478 | the loops compute exactly the explorer indexes, with the transaction counter starting where it was |
| `TransactionChecks.CheckInputsOverflow` | lib/CryptoNoteCore/CryptoNoteFormatUtils.cpp:462-482 | the test on wrapped running sums accepts exactly the inputs whose true sum fits 64 bits |
| `TransactionChecks.CheckOutsOverflow` | lib/CryptoNoteCore/CryptoNoteFormatUtils.cpp:484-494 | the same for the outputs |
| `TransactionChecks.CheckMultisignatureInputsDiff` | lib/CryptoNoteCore/CryptoNoteFormatUtils.cpp:443-455 | the loop accepts exactly the inputs with pairwise different multisignature outputs |
| `TransactionChecks.CheckKeyImagesDiff` | lib/CryptoNoteCore/Core.cpp:543-610 | the loop accepts exactly key images that are pairwise different and in the domain, with rings that are not empty and whose relative offsets after the first are not zero |
| `TransactionChecks.CheckTxSemantic` | lib/CryptoNoteCore/Core.cpp:469-541 | what is accepted, exactly, and that it satisfies everything the ledger assumes of pooled transactions |
| `Positional.HashIsPositional` | lib/CryptoNoteCore/Difficulty.cpp:59-75 | the number a hash is compared by has its four words as digits, the last word weighing most |
| `WideArithmetic.Mul128` | lib/Common/int-util.h:70-96 | high and low word are the exact 128-bit product |
| `WideArithmetic.Mul` | lib/CryptoNoteCore/Difficulty.cpp:34-47 | both forms of the multiplication give the same two words |
| `WideArithmetic.CarryIsExact` | lib/CryptoNoteCore/Difficulty.cpp:49-57 | the carry tests are exact |
| `WideArithmetic.CheckHash` | lib/CryptoNoteCore/Difficulty.cpp:59-75 | true if and only if the 256-bit hash times the difficulty is below 2^256 |
| `WideArithmetic.DivWithRemainder` | lib/Common/int-util.h:98-104 | one exact step of long division, with no overflow of the quotient |
| `WideArithmetic.Div128By32` | lib/Common/int-util.h:107-127 | exact quotient and remainder of a 128-bit number |
| `Penalty.GetPenalizedAmount` | lib/CryptoNoteCore/CryptoNoteBasicImpl.cpp:33-75 | the 64-bit code computes the amount up to the median, and above it the amount times (2m-s)s divided by m squared, rounded down; its two final assertions hold |
| `Penalty.PenalizedIs` | lib/CryptoNoteCore/CryptoNoteBasicImpl.cpp:33-75 | the penalty of the specification written out, for any amount, median and size up to twice the median |
| `Penalty.PenalizedIsLess` | lib/CryptoNoteCore/CryptoNoteBasicImpl.cpp:71-72 | above the median, less than the amount remains |
| `Penalty.PenalizedDecreases` | lib/CryptoNoteCore/CryptoNoteBasicImpl.cpp:33-75 | a larger block never keeps more |
| `Penalty.GetBlockReward` | lib/CryptoNoteCore/Currency.cpp:184-204 | there is no reward if and only if the size is above twice the median; up to the median it is base reward and fee, above it each of them times (2m-s)s over m squared rounded down, modulo 2^64; the change of the emission is that minus the fee modulo 2^64 and fits a signed word |
| `Penalty.RewardIs` | lib/CryptoNoteCore/Currency.cpp:184-204 | the reward of the specification written out: the penalty is on base reward and fee alike, and the emission changes by what is left minus the fee |
| `MinerTransaction.DecomposeAmount` | lib/CryptoNoteCore/CryptoNoteFormatUtils.h:168-203 | the emitted amounts are nonzero digits times powers of ten, in growing places, and one dust of at most the threshold; they sum to the amount |
| `MinerTransaction.NextDigit` | lib/CryptoNoteCore/CryptoNoteFormatUtils.h:182-185 | no chunk that is used wraps around 64 bits |
| `MinerTransaction.MergeOutputs` | lib/CryptoNoteCore/Currency.cpp:365-368 | merging keeps the sum and ends with at most the allowed number of amounts |
| `MinerTransaction.ConstructMinerAmounts` | lib/CryptoNoteCore/Currency.cpp:341-441 | the guard on the sum fires if and only if governance is on, nothing was generated before and the share is not zero; otherwise the amounts sum to the reward, exactly so if and only if the share does not exceed it, and the miner's outputs are the decimal digits of its part at their places, from the lowest up, with the last ones added together where more outputs than allowed would be needed |
| `DifficultyWindow.MainWindow` | lib/CryptoNoteCore/Blockchain.cpp:830-849 | the loop gathers timestamp and cumulative difficulty of the last n blocks in order, or of all but the genesis block if there are fewer |
| `DifficultyWindow.AlternativeWindow` | lib/CryptoNoteCore/Blockchain.cpp:1305-1375 | in all three cases the window for an alternative chain is the main-chain window of the spliced chain, and the branch for too many blocks is never taken |
| `DifficultyWindow.SplicedWindow` | lib/CryptoNoteCore/Blockchain.cpp:1315-1361 | the window of a spliced chain by the lengths of its two parts |
| `BlockIndexing.BlockIndex.Push` | lib/CryptoNoteCore/BlockIndex.h:51-55 | a new hash is appended, a known one is refused, and hashes stay unique |
| `BlockIndexing.BlockIndex.Pop` | lib/CryptoNoteCore/BlockIndex.h:45-48 | the last hash is removed |
| `BlockIndexing.BlockIndex.GetBlockHeight` | lib/CryptoNoteCore/BlockIndex.h:62-72 | finds the position of exactly the known hashes |
| `BlockIndexing.BlockIndex.GetBlockIds` | lib/CryptoNoteCore/BlockIndex.cpp:32-49 | the slice of hashes from the start, cut at the end |
| `BlockIndexing.BlockIndex.FindSupplement` | lib/CryptoNoteCore/BlockIndex.cpp:51-60 | the height at which the first hash of the list that is known stands in the index, none if no hash is known |
| `BlockIndexing.BlockIndex.BuildSparseChain` | lib/CryptoNoteCore/BlockIndex.cpp:62-80 | the hashes at doubling distances below the start, and the genesis hash |
| `BlockIndexing.SparseChainShape` | lib/CryptoNoteCore/BlockIndex.cpp:69-77 | the heights start at the given block, decrease strictly and end at genesis; in between, entry k is at distance 2^k below the end, for every power that fits |
| `BlockIndexing.KnownIsBelow` | lib/CryptoNoteCore/BlockIndex.cpp:51-60 | against a chain that forks off, the answer is the first listed height below the fork |
| `BlockIndexing.SyncBound` | lib/CryptoNoteCore/BlockIndex.cpp:51-80 | a local chain asked with a remote sparse chain finds a common block at most as far below the last common one as the remote chain is ahead of it |
| `Shuffle.SparseRefinesDense` | lib/Common/ShuffleGenerator.h:57-69 | one draw on the sparse map is one swap-with-last step on the dense array it stands for |
| `Shuffle.ShuffleGenerator.Next` | lib/Common/ShuffleGenerator.h:46-72 | each draw returns the chosen element of what is left and removes it; an exhausted generator refuses |
| `Shuffle.ShuffleGenerator.Reset` | lib/Common/ShuffleGenerator.h:40-44 | a reset generator starts over |
| `Shuffle.DrawsArePermutation` | lib/Common/ShuffleGenerator.h:46-72 | for every sequence of choices, N draws are a permutation of 0..N-1 |
| `Shuffle.EveryOrderIsDrawn` | lib/Common/ShuffleGenerator.h:46-72 | every permutation is drawn by some sequence of choices |
| `Base58.LettersOfAlphabet` | lib/Common/Base58.cpp:33-34 | the runs of consecutive characters spell the alphabet |
| `Base58.ReverseAlphabet` | lib/Common/Base58.cpp:40-57 | the reverse table answers every character: its digit, or -1 |
| `Base58.SizeTables` | lib/Common/Base58.cpp:35-38 | the table of encoded block sizes |
| `Base58.SizesInvert` | lib/Common/Base58.cpp:67-88 | the two size tables are inverse, and sizes 1, 4 and 8 have no block |
| `Base58.Room` | lib/Common/Base58.cpp:35-38 | every block has letters enough for its bytes, so the encoder's index stays in its block |
| `Positional.FirstWeighsMost` | lib/Common/Base58.cpp:92-134 | the value of a digit string is the first digit times the power of its place, and the rest |
| `Base58.BlockSamples` | tests/UnitTests/Base58.cpp:166-179 | blocks of one and two bytes come out as the letters the unit tests name |
| `Base58.BlockRoundTrip` | lib/Common/Base58.cpp:145-194 | decoding the letters of a block gives its bytes |
| `Base58.BlockIsCanonical` | lib/Common/Base58.cpp:159-194 | an accepted block of letters is the encoding of the bytes it gives |
| `Base58.EncodeBlock` | lib/Common/Base58.cpp:145-157 | the loop writes exactly the letters of the block in its place and nothing else |
| `Base58.SumFits` | lib/Common/Base58.cpp:177-180 | the overflow test after a 64-bit addition is exact |
| `Base58.DecodeBlock` | lib/Common/Base58.cpp:159-194 | accepts exactly the blocks of known size and letters whose number fits, with no overflow missed, and writes its bytes |
| `Base58.Encode` | lib/Common/Base58.cpp:198-220 | the block loop computes the encoding |
| `Base58.Decode` | lib/Common/Base58.cpp:222-255 | the block loop computes the decoding, refusals included |
| `Base58.DecodeUndoesEncode` | lib/Common/Base58.cpp:198-255 | every byte string survives encoding and decoding |
| `Base58.EncodeUndoesDecode` | lib/Common/Base58.cpp:198-255 | an accepted text is the encoding of what it decodes to, so no two texts mean the same |
| `VarintCodec.WriteVarint` | lib/Common/Varint.h:29-38 | the loop writes the seven-bit groups of the number |
| `VarintCodec.ReadVarint` | lib/Common/Varint.h:50-77 | the loop's count and number, or -1 for an overflow and -2 for a number that is not canonical, for every input |
| `VarintCodec.VarintSpells` | lib/Common/Varint.h:29-38 | what is written is the number in base 128, lowest group first, without leading zeros, the high bit set on all bytes but the last |
| `VarintCodec.ReadFails` | lib/Common/Varint.h:65-70 | reading overflows if and only if nine bytes continue and the tenth is above one, and is not canonical if and only if a later byte before that is zero |
| `VarintCodec.ByteFits` | lib/Common/Varint.h:65-71 | a byte that passes the overflow test adds its bits without leaving 64 bits |
| `VarintCodec.ReadUndoesWrite` | lib/Common/Varint.h:31-77 | a written number is read back whatever follows it |
| `VarintCodec.WriteUndoesRead` | lib/Common/Varint.h:50-77 | what is read completely is the only way to write that number; an incomplete one took every byte |
| `Address.AddressBytes` | lib/Common/Base58.cpp:257-268 | an address decodes to the tag, the data and the first four bytes of their hash, and is that long |
| `Address.AcceptedIff` | lib/Common/Base58.cpp:270-302 | an address is accepted if and only if it is base 58 of more than four bytes, the last four of which are the first of the hash of the others, and these begin with a number |
| `Address.DecodeUndoesEncodeAddr` | lib/Common/Base58.cpp:257-299 | every 64-bit tag and all data survive encode_addr and decode_addr, for any hash function |
| `Address.EncodeUndoesDecodeAddr` | lib/Common/Base58.cpp:270-299 | an accepted address is the one encode_addr makes if and only if some byte in front of the checksum has its high bit clear |
| `Address.UnfinishedTagIsAccepted` | lib/Common/Varint.h:59-62 | for every hash function, an accepted address that encode_addr does not make |
| `BlockingQueue.StepKeepsGood` | lib/Common/BlockingQueue.h:37-93 | every step of every thread keeps the bound, the order, the rules of closing and the cover of sleepers by woken threads |
| `BlockingQueue.PushKeepsCovered` | lib/Common/BlockingQueue.h:37-54 | a push wakes a popper or none is asleep, so woken poppers still cover the queue |
| `BlockingQueue.PopKeepsCovered` | lib/Common/BlockingQueue.h:56-80 | a pop wakes a pusher or none is asleep, so queue and woken pushers still fill the capacity |
| `BlockingQueue.EveryRun` | lib/Common/BlockingQueue.h:37-93 | over every interleaving with spurious wakeups: at most the capacity, pops are a prefix of the pushes in order, a waiting close returns only when empty, and sleepers are covered |
| `BlockingQueue.NoPushAfterClose` | lib/Common/BlockingQueue.h:82-93 | nothing is pushed after a close, over every run |
| `BlockingQueue.CallReturns` | lib/Common/BlockingQueue.h:37-93 | what a call returns when it ends: a push true if and only if the queue is open, and exactly then its value is appended within the bound; a pop true if and only if there is a value, and exactly then the first one is taken, false only on a closed and drained queue; a waiting close only when drained |
| `BlockingQueue.RecordsNeedReturns` | lib/Common/BlockingQueue.h:37-93 | nothing is appended or taken but by a call that ends with true in that step |
| `BlockingQueue.RunReturns` | lib/Common/BlockingQueue.h:37-93 | over every run the values pushed are exactly those of the pushes that returned true, in the order of their returns, and as many are taken from the front as pops returned true |
| `BlockingQueue.PushEndedBefore` | lib/Common/BlockingQueue.h:37-54 | a push that has returned true after the queue was closed had returned before it was closed: no push begun after a close returns true |
| `BlockingQueue.NobodySleepsInVain` | lib/Common/BlockingQueue.h:41-93 | when no thread can run, every sleeping pusher faces a full open queue, every sleeping popper an empty open one, every sleeping closer something to drain |
| `BlockingQueue.LastOfGroupCloses` | lib/Common/BlockingQueue.h:111-136 | the queue is closed exactly once, by the last of the group, however the calls race |
| `FileLayout.LoadIsLayout` | lib/Common/FileMappedVector.h:977-997 | open accepts exactly the files laid out this way and finds what was laid out |
| `FileLayout.FileSize` | lib/Common/FileMappedVector.h:977-997 | the size of a file from its prefix, capacity and suffix, with size at most capacity, and at which byte each region of it begins |
| `FileLayout.PutCapacity` | lib/Common/FileMappedVector.h:1027-1036 | writing through the capacity pointer changes the capacity only |
| `FileLayout.PutSize` | lib/Common/FileMappedVector.h:1039-1048 | writing through the size pointer changes the size only |
| `FileLayout.PutPrefix` | lib/Common/FileMappedVector.h:1015-1024 | writing through the prefix pointer changes the prefix only |
| `FileLayout.PutData` | lib/Common/FileMappedVector.h:1051-1060 | writing through the data pointer changes the elements only |
| `FileLayout.PutSuffix` | lib/Common/FileMappedVector.h:1063-1072 | writing through the suffix pointer changes the suffix only |
| `FileLayout.CutFlat` | lib/Common/FileMappedVector.h:579-592 | elements laid end to end are found again |
| `FileMappedVector.Vector.Create` | lib/Common/FileMappedVector.h:1000-1012 | the new file is empty with the given capacity, only it is written, and stopping leaves no element in it |
| `FileMappedVector.NoElementsIsEmpty` | lib/Common/FileMappedVector.h:977-997 | open refuses a file left by a stopped creation or finds an empty vector in it |
| `FileMappedVector.StoppedCreate` | lib/Common/FileMappedVector.h:1000-1012 | stopped before the capacity is written, the file opens as a vector without room whose suffix is what was meant for the elements |
| `FileMappedVector.Vector.BuildTmp` | lib/Common/FileMappedVector.h:895-925 | the temporary file ends as the updated vector with the prefix and suffix cut or padded, and only it is written on the way |
| `FileMappedVector.Vector.SwapIn` | lib/Common/FileMappedVector.h:955-973 | the swap through the backup, or the way back: what is recovered at each point, which file is mapped at the end, and that the temporary file is gone |
| `FileMappedVector.Vector.AtomicUpdate` | lib/Common/FileMappedVector.h:895-974 | stopped after any change to the disk, the vector recovers exactly as it was or, from the swap on, exactly as updated; a failed update changes nothing; a vector left on its backup refuses |
| `FileMappedVector.Vector.StartEmpty` | lib/Common/FileMappedVector.h:439-445 | creating starts an empty vector of capacity ten |
| `FileMappedVector.Vector.Open` | lib/Common/FileMappedVector.h:416-453 | in each of the three modes: when it succeeds, and that it finds what is recovered or starts an empty vector with room for ten elements and a zeroed prefix; stopping it changes nothing, or leaves a new file without elements |
| `FileMappedVector.Vector.Reserve` | lib/Common/FileMappedVector.h:507-516 | it succeeds if and only if there is room already or no step of the update fails; same elements, the asked capacity if it was larger, and stopping it anywhere keeps the elements |
| `FileMappedVector.Vector.Insert` | lib/Common/FileMappedVector.h:714-742 | it succeeds if and only if no step of the update fails; the values are then inserted at the position, and if they do not fit the capacity becomes what the growth rule says; stopping it anywhere leaves the old or the new elements |
| `FileMappedVector.Vector.Erase` | lib/Common/FileMappedVector.h:684-701 | it succeeds if and only if no step of the update fails, and then the range is removed; stopping it anywhere leaves the old or the new elements |
| `FileMappedVector.Vector.PushBack` | lib/Common/FileMappedVector.h:754-767 | it succeeds if and only if there is room or the update that makes room does not fail; the value is then appended; a full vector first grows to its capacity, half of it and one more; stopping it anywhere leaves the old or the new elements |
| `FileMappedVector.Vector.PopBack` | lib/Common/FileMappedVector.h:745-751 | the last element is removed and nothing else changes; stopping it leaves the old or the shortened elements |
| `FileMappedVector.RewroteRecovers` | lib/Common/FileMappedVector.h:939-951 | writing the temporary file changes nothing that open looks at |

## Left out

- BlockchainObject.Blockchain.PushTransaction: at most 65535 outputs per transaction and fewer than 65535 transactions per block are assumed (`Countable`), since the 16-bit counters of the code do not get past them; 32-bit heights are not modelled.
- BlockchainObject.Blockchain.SwitchToAlternative: the bookkeeping of the alternative chains around the switch (re-adding the disconnected blocks as an alternative, erasing a failed branch, the orphan index) is not modelled; the split height is at least 1, since an alternative chain hangs on a block of the main chain.
- BlockchainObject.Blockchain.CheckHeader: block version, merge-mining tag, timestamp median, checkpoint and proof of work are one arbitrary predicate; the detectors of upgrades and the next size limit are not modelled.
- BlockchainObject.Blockchain.CheckTxInput: the curve check, the unlock time and the ring signature over the collected keys are answers from outside; a block file that cannot be read is not modelled.
- BlockchainObject.Blockchain.ValidateInput: the signature loop is one answer from outside, as is the unlock time.
- BlockchainObject.Blockchain.ValidateMinerTransaction: the governance share is an arbitrary predicate, and the median of the last block sizes and the base reward are arbitrary numbers of 32 and 64 bits.
- BlockchainObject.Blockchain.RebuildCache: reading and writing the cache file is not modelled.
- MinerTransaction.ConstructMinerAmounts: key derivation is taken to succeed and only the amounts are modelled.
- TransactionChecks.CheckTxSemantic: signature counts, output keys and the curve computation on key images are taken as answers from outside.
- FileMappedVector.Vector.AtomicUpdate: removing a stale backup is taken to succeed, a file that could not be created leaves nothing behind, and loss of unflushed pages on a power failure is not modelled.
- FileLayout.LoadIsLayout: the product of capacity and element size is not wrapped to 64 bits, as it could be for a forged file.
- BlockIndexing.BlockIndex.BuildSparseChain: the sparse chain over an alternative branch is not modelled.
- DifficultyWindow.AlternativeWindow: the difficulty itself is floating point and is not modelled, only the data it is computed from.
- Cryptography: key derivation, ring signatures, the slow hash and the tree hash.
- The transaction pool beyond take and add: fees, priorities, and the removal of stuck transactions by time.
- `resetAndSetGenesisBlock`, which clears only part of the state and is not part of normal runs.
- Absolute to relative output offsets, `shrink_to_fit`, and resizing prefix or suffix, which would only add easy members.
- The RPC server, wallet, network protocol, JSON, console, DNS checkpoints and platform code.
