/** Properties of whole runs: after every run, whatever fails in it, no transaction is held twice, none is lost but by
    an exception, and the indexes match the chain; and after every run whose steps can be undone, the derived state
    equals a rebuild. */
module Runs {
  import opened ChainTypes
  import opened DerivedState
  import opened Rules
  import opened Ledger
  import opened Steps
  import opened Reorganisation
  import opened Switching
  import opened Definedness
  import opened Conservation
  import opened Leftovers
  import opened Roots
  import opened Places

  datatype Step =
    | Push(b: Block, delay: nat)
    | Pop
    | RollbackTo(height: nat)
    | SwitchTo(alt: seq<Block>, split: nat, plausible: bool, delays: nat -> nat)
    | Receive(tx: Transaction)
    | Expire(tx: Transaction)

  /** A transaction enters the pool if it passes the semantic check and is not recorded. */
  ghost function Next(rules: Rules, s: State, step: Step): State {
    match step
    case Push(b, delay) => PushBlock(rules, s.now + delay, s, b).0
    case Pop => PopBlock(s)
    case RollbackTo(height) => RemoveTo(s, height + 1)
    case SwitchTo(alt, split, plausible, delays) => Switch(rules, delays, s, alt, split, plausible).0
    case Receive(tx) => if Semantic(tx) && OfTransaction(tx) !in s.d.transactions then s.(pool := s.pool + {tx}) else s
    case Expire(tx) => s.(pool := s.pool - {tx})
  }

  ghost function Run(rules: Rules, s: State, steps: seq<Step>): State
    decreases |steps|
  {
    if steps == [] then s else Run(rules, Next(rules, s, steps[0]), steps[1..])
  }

  // ---------------------------------------------------------------------------------------------
  // Every run

  lemma StepKeepsKept(rules: Rules, s: State, step: Step)
    requires Kept(rules, s)
    ensures Kept(rules, Next(rules, s, step))
  {
    hide Kept, PushBlock, PopBlock, RemoveTo, Switch, Semantic;
    match step {
      case Push(b, delay) => PushKeepsKept(rules, s.now + delay, s, b);
      case Pop => PopKeepsKept(rules, s);
      case RollbackTo(height) => RemoveToKeepsKept(rules, s, height + 1);
      case SwitchTo(alt, split, plausible, delays) => SwitchConserves(rules, delays, s, alt, split, plausible);
      case Receive(tx) => if Semantic(tx) && OfTransaction(tx) !in s.d.transactions { ReceiveKeepsKept(rules, s, tx); }
      case Expire(tx) => ExpireKeepsKept(rules, s, tx);
    }
  }

  lemma ReceiveKeepsKept(rules: Rules, s: State, tx: Transaction)
    requires Kept(rules, s) && Semantic(tx) && OfTransaction(tx) !in s.d.transactions
    ensures Kept(rules, s.(pool := s.pool + {tx}))
  {
    hide KeptChain, ImagesApart, IndexesOf, Semantic;
    var s', new' := s.(pool := s.pool + {tx}), OfTransaction(tx);
    assert PoolHashes(s'.pool) == PoolHashes(s.pool) + {new'};
    if new' in Named(s.blocks) {
      var k := NamedAt(s.blocks, new');
      NamedIsThere(rules, s, k, tx);
    }
    forall h ensures Holdings(s')[h] <= 1 { assert Holdings(s)[h] <= 1; }
  }

  lemma {:induction false} NamedAt(blocks: seq<BlockEntry>, h: Hash) returns (k: nat)
    requires h in Named(blocks)
    ensures k < |blocks| && h in blocks[k].bl.transactionHashes
    decreases |blocks|
  {
    var n := |blocks| - 1;
    if h in multiset(blocks[n].bl.transactionHashes) { k := n; } else { k := NamedAt(blocks[..n], h); }
  }

  lemma ExpireKeepsKept(rules: Rules, s: State, tx: Transaction)
    requires Kept(rules, s)
    ensures Kept(rules, s.(pool := s.pool - {tx}))
  {
    hide KeptChain, ImagesApart, IndexesOf, Semantic, ChainRecorded;
    var s' := s.(pool := s.pool - {tx});
    assert PoolHashes(s'.pool) <= PoolHashes(s.pool);
    forall h ensures Holdings(s')[h] <= 1 { assert Holdings(s)[h] <= 1; }
  }

  /** After every run the explorer indexes and the block index match the chain, every transaction of the chain is in the
      transaction map, so no lookup of one throws, and no transaction is held twice by pool and chain together. */
  lemma {:induction false} EveryRunIsKept(rules: Rules, s: State, steps: seq<Step>)
    requires Kept(rules, s)
    ensures Kept(rules, Run(rules, s, steps))
    ensures var t := Run(rules, s, steps);
      && t.ix == IndexesOf(t.d.indexed, t.blocks) && ChainRecorded(t.blocks, t.d)
      && forall h :: Holdings(t)[h] <= 1
    decreases |steps|
  {
    hide Next, KeptChain, ChainRecorded, ImagesApart, IndexesOf, Semantic, Holdings;
    if steps != [] {
      StepKeepsKept(rules, s, steps[0]);
      EveryRunIsKept(rules, Next(rules, s, steps[0]), steps[1..]);
    }
  }

  ghost predicate MovesOnly(steps: seq<Step>) {
    forall i | 0 <= i < |steps| :: steps[i].Push? || steps[i].Pop? || steps[i].SwitchTo?
  }

  /** The transactions that the step loses: those of a block that is left by an exception. */
  ghost function StepLoses(rules: Rules, s: State, step: Step): multiset<Hash> {
    match step
    case Push(b, delay) => Lost(rules, s.now + delay, s, b)
    case SwitchTo(alt, split, plausible, delays) => LostInSwitch(rules, delays, s, alt, split, plausible)
    case _ => multiset{}
  }

  ghost predicate StepThrows(rules: Rules, s: State, step: Step) {
    match step
    case Push(b, delay) => IsThrown(rules, s.now + delay, s, b)
    case SwitchTo(alt, split, plausible, delays) => ThrownInSwitch(rules, delays, s, alt, split, plausible)
    case _ => false
  }

  ghost function RunLoses(rules: Rules, s: State, steps: seq<Step>): multiset<Hash>
    decreases |steps|
  {
    if steps == [] then multiset{} else StepLoses(rules, s, steps[0]) + RunLoses(rules, Next(rules, s, steps[0]), steps[1..])
  }

  ghost predicate RunThrows(rules: Rules, s: State, steps: seq<Step>)
    decreases |steps|
  {
    steps != [] && (StepThrows(rules, s, steps[0]) || RunThrows(rules, Next(rules, s, steps[0]), steps[1..]))
  }

  lemma StepConserves(rules: Rules, s: State, step: Step)
    requires Kept(rules, s) && (step.Push? || step.Pop? || step.SwitchTo?)
    ensures Holdings(s) == Holdings(Next(rules, s, step)) + StepLoses(rules, s, step)
    ensures StepLoses(rules, s, step) == multiset{} <==> !StepThrows(rules, s, step)
  {
    hide Kept, PushBlock, PopBlock, Switch, Holdings, Lost, IsThrown, LostInSwitch, ThrownInSwitch;
    match step {
      case Push(b, delay) => PushConserves(rules, s.now + delay, s, b);
      case Pop => PopConserves(rules, s);
      case SwitchTo(alt, split, plausible, delays) => SwitchConserves(rules, delays, s, alt, split, plausible);
      case _ =>
    }
    NothingLost(Holdings(s), Holdings(Next(rules, s, step)), StepLoses(rules, s, step));
  }

  /** Along every run of pushes, pops and switches pool and chain together lose the transactions of the blocks that
      are left by an exception and no others, and each is held once: even when a block fails for its size and a
      rollback loses blocks. So they stay the same if and only if no step throws. */
  lemma {:induction false} RunConserves(rules: Rules, s: State, steps: seq<Step>)
    requires Kept(rules, s) && MovesOnly(steps)
    ensures Holdings(s) == Holdings(Run(rules, s, steps)) + RunLoses(rules, s, steps)
    ensures Holdings(Run(rules, s, steps)) == Holdings(s) <==> !RunThrows(rules, s, steps)
    ensures forall h :: Holdings(Run(rules, s, steps))[h] <= 1
    decreases |steps|
  {
    hide Next, Holdings, KeptChain, ChainRecorded, ImagesApart, IndexesOf, Semantic, StepLoses, StepThrows;
    if steps != [] {
      var s1 := Next(rules, s, steps[0]);
      StepKeepsKept(rules, s, steps[0]);
      StepConserves(rules, s, steps[0]);
      RunConserves(rules, s1, steps[1..]);
      NothingLost(Holdings(s1), Holdings(Run(rules, s1, steps[1..])), RunLoses(rules, s1, steps[1..]));
      NothingLost(Holdings(s), Holdings(Run(rules, s, steps)), RunLoses(rules, s, steps));
    }
  }

  // ---------------------------------------------------------------------------------------------
  // Definedness of runs

  /** No pop looks for a transaction that is not recorded, no index is out of range, and no counter runs over. */
  ghost predicate StepHandled(rules: Rules, s: State, step: Step) {
    match step
    case Push(b, delay) => Handled(rules, s.now + delay, s, b)
    case Pop => Poppable(s)
    case RollbackTo(height) => RemovableTo(s, height + 1)
    case SwitchTo(alt, split, plausible, delays) => SwitchHandled(rules, delays, s, alt, split, plausible)
    case _ => true
  }

  ghost predicate RunHandled(rules: Rules, s: State, steps: seq<Step>)
    decreases |steps|
  {
    steps == [] || (StepHandled(rules, s, steps[0]) && RunHandled(rules, Next(rules, s, steps[0]), steps[1..]))
  }

  /** The blocks that the run brings can be counted in 16 bits. */
  ghost predicate StepCountable(step: Step) {
    match step
    case Push(b, _) => NamesTransactions(b) ==> Countable(b)
    case SwitchTo(alt, _, _, _) => AllCountable(alt)
    case _ => true
  }

  /** The step leaves the blocks below height `low` alone. */
  ghost predicate Stays(low: nat, s: State, step: Step) {
    match step
    case Pop => s.blocks == [] || low < |s.blocks|
    case RollbackTo(height) => low <= height + 1
    case SwitchTo(_, split, _, _) => low <= split
    case _ => true
  }

  ghost predicate RunStays(rules: Rules, low: nat, s: State, steps: seq<Step>)
    decreases |steps|
  {
    steps == [] || (Stays(low, s, steps[0]) && RunStays(rules, low, Next(rules, s, steps[0]), steps[1..]))
  }

  /** The input checks of the step do not index past the transactions of a block. */
  ghost predicate StepInside(rules: Rules, s: State, step: Step) {
    match step
    case Push(b, delay) => Inside(rules, s.now + delay, s, b)
    case SwitchTo(alt, split, plausible, delays) => SwitchInside(rules, delays, s, alt, split, plausible)
    case _ => true
  }

  ghost predicate RunInside(rules: Rules, s: State, steps: seq<Step>)
    decreases |steps|
  {
    steps == [] || (StepInside(rules, s, steps[0]) && RunInside(rules, Next(rules, s, steps[0]), steps[1..]))
  }

  lemma StepLingers(rules: Rules, base: Base, low: nat, s: State, step: Step)
    requires Lingering(rules, base, low, s) && StepCountable(step) && Stays(low, s, step)
             && forall k | low <= k :: !rules.inZone(k)
    ensures StepHandled(rules, s, step) <==> StepInside(rules, s, step)
    ensures Lingering(rules, base, low, Next(rules, s, step))
  {
    hide Lingering, PushBlock, PopBlock, RemoveTo, Switch, Semantic, Handled, Poppable, RemovableTo, SwitchHandled,
         Countable, Inside, SwitchInside;
    match step {
      case Push(b, delay) =>
        LingersAbove(rules, base, low, s);
        PushLingers(rules, s.now + delay, base, low, s, b);
      case Pop =>
        if s.blocks != [] { PopLingers(rules, base, low, s); } else { NothingToPop(s); }
      case RollbackTo(height) => RemoveToLingers(rules, base, low, s, height + 1);
      case SwitchTo(alt, split, plausible, delays) => SwitchLingers(rules, delays, base, low, s, alt, split, plausible);
      case Receive(tx) => if Semantic(tx)
        && OfTransaction(tx) !in s.d.transactions { PoolLingers(rules, base, low, s, s.pool + {tx}, step); }
      case Expire(tx) => PoolLingers(rules, base, low, s, s.pool - {tx}, step);
    }
  }

  lemma NothingToPop(s: State)
    requires s.blocks == []
    ensures Poppable(s) && PopBlock(s) == s
  {
  }

  lemma PoolLingers(rules: Rules, base: Base, low: nat, s: State, pool: set<Transaction>, step: Step)
    requires Lingering(rules, base, low, s) && Next(rules, s, step) == s.(pool := pool)
    requires forall tx | tx in pool - s.pool :: OfTransaction(tx) !in s.d.transactions
    ensures Lingering(rules, base, low, s.(pool := pool))
  {
    hide Kept, Owns, AllTxs, Countable, Next;
    StepKeepsKept(rules, s, step);
  }

  lemma {:induction false} RunLingers(rules: Rules, base: Base, low: nat, s: State, steps: seq<Step>)
    requires Lingering(rules, base, low, s) && RunStays(rules, low, s, steps) && forall k | low <= k :: !rules.inZone(k)
    requires forall i | 0 <= i < |steps| :: StepCountable(steps[i])
    ensures RunHandled(rules, s, steps) <==> RunInside(rules, s, steps)
    ensures Lingering(rules, base, low, Run(rules, s, steps))
    decreases |steps|
  {
    hide Lingering, Next, StepHandled, StepInside, StepCountable, Stays;
    if steps != [] {
      StepLingers(rules, base, low, s, steps[0]);
      RunLingers(rules, base, low, Next(rules, s, steps[0]), steps[1..]);
    }
  }

  /** Along a run that stays above the checkpoint zone every step is defined, whatever fails in it, if and only if no
      input check indexes past the transactions of a block. */
  lemma EveryRunIsDefined(rules: Rules, s: State, low: nat, steps: seq<Step>)
    requires Good(rules, s) && low <= |s.blocks| && (forall k | low <= k :: !rules.inZone(k))
             && RunStays(rules, low, s, steps)
    requires forall i | 0 <= i < |steps| :: StepCountable(steps[i])
    ensures RunHandled(rules, s, steps) <==> RunInside(rules, s, steps)
  {
    hide Good, Lingering, RunHandled, RunInside, RunStays, StepCountable, Below;
    GoodLingers(rules, s, low);
    RunLingers(rules, BaseOf(Below(s, low)), low, s, steps);
  }

  /** The blocks that the step brings name only outputs that `d` holds. */
  ghost predicate StepBackward(d: Derived, step: Step) {
    match step
    case Push(b, _) => BlockBackward(d, b)
    case SwitchTo(alt, _, _, _) => forall k | 0 <= k < |alt| :: BlockBackward(d, alt[k])
    case _ => true
  }

  lemma StepRooted(rules: Rules, root: seq<BlockEntry>, d: Derived, base: Base, s: State, step: Step)
    requires Lingering(rules, base, |root|, s) && Rooted(root, d, base.hashes, s) && StepCountable(step)
             && StepBackward(d, step)
    requires Stays(|root|, s, step) && forall k | |root| <= k :: !rules.inZone(k)
    ensures StepInside(rules, s, step) && !StepThrows(rules, s, step)
            && Rooted(root, d, base.hashes, Next(rules, s, step))
  {
    hide Lingering, PushBlock, PopBlock, RemoveTo, Switch, Semantic, BlockBackward, Countable, Inside, SwitchInside,
         IsThrown, ThrownInSwitch, WellFormed, Placed, KeepsOutputs, RecordedFrom, AllTxs, Backward;
    match step {
      case Push(b, delay) => PushRooted(rules, s.now + delay, root, d, base, s, b);
      case Pop =>
        if s.blocks != [] { PopRooted(rules, root, d, base, s); } else { NothingToPop(s); }
      case RollbackTo(height) => RemoveToRooted(rules, root, d, base, s, height + 1);
      case SwitchTo(alt, split, plausible, delays) => SwitchRooted(rules, delays, root, d, base, s, alt, split, plausible);
      case _ =>
    }
  }

  lemma {:induction false} RunRooted(
    rules: Rules, root: seq<BlockEntry>, d: Derived, base: Base, s: State, steps: seq<Step>)
    requires Lingering(rules, base, |root|, s) && Rooted(root, d, base.hashes, s)
    requires RunStays(rules, |root|, s, steps) && forall k | |root| <= k :: !rules.inZone(k)
    requires forall i | 0 <= i < |steps| :: StepCountable(steps[i]) && StepBackward(d, steps[i])
    ensures RunInside(rules, s, steps) && !RunThrows(rules, s, steps)
    decreases |steps|
  {
    hide Lingering, Rooted, Next, StepInside, StepThrows, StepHandled, StepCountable, StepBackward, Stays;
    if steps != [] {
      StepLingers(rules, base, |root|, s, steps[0]);
      StepRooted(rules, root, d, base, s, steps[0]);
      RunRooted(rules, root, d, base, Next(rules, s, steps[0]), steps[1..]);
    }
  }

  /** If the blocks from height `low` on, and those that the run brings, name only outputs of the blocks below, every
      step is defined and none throws, whatever fails for its size and whatever a rollback leaves. */
  lemma BackwardRunIsDefined(rules: Rules, s: State, low: nat, steps: seq<Step>)
    requires Good(rules, s) && low <= |s.blocks| && (forall k | low <= k :: !rules.inZone(k))
             && RunStays(rules, low, s, steps)
    requires forall k | low <= k < |s.blocks| :: BlockBackward(Below(s, low).d, s.blocks[k].bl)
    requires forall i | 0 <= i < |steps| :: StepCountable(steps[i]) && StepBackward(Below(s, low).d, steps[i])
    ensures RunHandled(rules, s, steps) && !RunThrows(rules, s, steps)
  {
    hide Good, Lingering, Rooted, RunHandled, RunInside, RunThrows, RunStays, StepCountable, StepBackward,
         BlockBackward, Below;
    var base := BaseOf(Below(s, low));
    GoodLingers(rules, s, low);
    GoodRooted(rules, s, low);
    RunRooted(rules, s.blocks[..low], Below(s, low).d, base, s, steps);
    RunLingers(rules, base, low, s, steps);
  }

  // ---------------------------------------------------------------------------------------------
  // Runs that stay clean

  /** Blocks fit, blocks that are removed can be undone, and switches are all or nothing. */
  ghost predicate Allowed(rules: Rules, s: State, step: Step) {
    match step
    case Push(b, delay) => Fits(rules, s.now + delay, s, b)
    case Pop => s.blocks != [] ==> Undoable(s, |s.blocks| - 1)
    case RollbackTo(height) => Undoable(s, height + 1)
    case SwitchTo(alt, split, plausible, delays) => SwitchFits(rules, delays, s, alt, split, plausible)
    case Receive(_) => true
    case Expire(_) => true
  }

  ghost predicate RunAllowed(rules: Rules, s: State, steps: seq<Step>)
    decreases |steps|
  {
    steps == [] || (Allowed(rules, s, steps[0]) && RunAllowed(rules, Next(rules, s, steps[0]), steps[1..]))
  }

  /** The code is defined on the step. */
  ghost predicate StepDefined(rules: Rules, s: State, step: Step) {
    match step
    case Push(b, _) => Defined(rules, s, b)
    case SwitchTo(alt, split, plausible, delays) => SwitchDefined(rules, delays, s, alt, split, plausible)
    case _ => true
  }

  /** The step keeps the invariant, and a switch is all or nothing. */
  ghost predicate WentWell(rules: Rules, s: State, step: Step) {
    && Good(rules, Next(rules, s, step))
    && match step
       case SwitchTo(alt, split, plausible, delays) =>
         var (s', ok) := Switch(rules, delays, s, alt, split, plausible); AllOrNothing(s, alt, split, s', ok)
       case _ => true
  }

  /** The conditions are exact: a step on which the code is defined goes well if and only if it is allowed. */
  lemma StepIsExact(rules: Rules, s: State, step: Step)
    requires Good(rules, s) && StepDefined(rules, s, step)
    ensures WentWell(rules, s, step) <==> Allowed(rules, s, step)
  {
    hide PushBlock, PopBlock, RemoveTo, Switch, Defined, Harmless, Rebuild, IndexesOf, Semantic, ChainOk, UnspentIn,
         SwitchFits, SwitchDefined, AllOrNothing;
    match step {
      case Push(b, delay) => PushKeepsGood(rules, s.now + delay, s, b);
      case Pop => if s.blocks != [] { PopIsExact(rules, s); } else { PopNothing(s); }
      case RollbackTo(height) =>
        if height + 1 <= |s.blocks| {
          RemoveToKeepsGood(rules, s, height + 1);
        } else {
          RemoveNothing(s, height + 1);
        }
      case SwitchTo(alt, split, plausible, delays) => SwitchIsExact(rules, delays, s, alt, split, plausible);
      case _ =>
    }
  }

  /** Outside the checkpoint zone a switch keeps the invariant if and only if it is allowed. */
  lemma SwitchIsExactOutsideZone(
    rules: Rules, s: State, alt: seq<Block>, split: nat, plausible: bool, delays: nat -> nat)
    requires Good(rules, s) && AllCountable(alt) && forall k | split <= k :: !rules.inZone(k)
    ensures var step := SwitchTo(alt, split, plausible, delays);
      StepDefined(rules, s, step) && (Good(rules, Next(rules, s, step)) <==> Allowed(rules, s, step))
  {
    hide Good, PopTo, PushAll, Covers, DefinedInTurn, FailsInTurn, ThrownInTurn, Released, UnspentIn, Bodies, Below,
         AllCountable, AllOrNothing;
    var step := SwitchTo(alt, split, plausible, delays);
    if Proceeds(s, alt, split, plausible) {
      SwitchOutsideZone(rules, delays, s, alt, split);
      SwitchGoodOutsideZone(rules, delays, s, alt, split);
      StepIsExact(rules, s, step);
    }
  }

  lemma AllowedIsDefined(rules: Rules, s: State, step: Step)
    requires Allowed(rules, s, step)
    ensures StepDefined(rules, s, step)
  {
    hide Defined, PopTo, PushAll, DefinedInTurn, FailsInTurn, ThrownInTurn, UnspentIn, Harmless, PushBlock, Released,
         Covers;
  }

  lemma StepKeepsGood(rules: Rules, s: State, step: Step)
    requires Good(rules, s) && Allowed(rules, s, step)
    ensures Good(rules, Next(rules, s, step))
  {
    hide Good, Next, Allowed, StepDefined, AllOrNothing, Switch;
    AllowedIsDefined(rules, s, step);
    StepIsExact(rules, s, step);
  }

  lemma PopIsExact(rules: Rules, s: State)
    requires Good(rules, s) && s.blocks != []
    ensures Good(rules, PopBlock(s)) <==> Undoable(s, |s.blocks| - 1)
  {
    hide Good, Undoable, PopBlock, Below, Clear, UnspentIn;
    PopToKeepsGood(rules, s, |s.blocks| - 1);
    ShorterByOne(s);
  }

  lemma ShorterByOne(s: State)
    requires s.blocks != []
    ensures PopTo(s, |s.blocks| - 1) == PopBlock(s) && |PopBlock(s).blocks| == |s.blocks| - 1
  {
    hide Unapplied, RemoveIndexes;
  }

  lemma PopNothing(s: State)
    requires s.blocks == []
    ensures PopBlock(s) == s
  {
  }

  lemma RemoveNothing(s: State, h: nat)
    requires |s.blocks| <= h
    ensures RemoveTo(s, h) == s
  {
  }

  /** After every run of allowed pushes, pops, rollbacks, switches and pool changes from the empty chain, each container
      equals what a rebuild from the blocks computes. */
  lemma {:induction false} EveryRunIsRebuilt(rules: Rules, s: State, steps: seq<Step>)
    requires Good(rules, s) && RunAllowed(rules, s, steps)
    ensures Good(rules, Run(rules, s, steps))
    ensures var t := Run(rules, s, steps);
      t.d == Rebuild(t.d.indexed, t.blocks) && t.ix == IndexesOf(t.d.indexed, t.blocks)
    decreases |steps|
  {
    hide Next, Allowed, Rebuild, IndexesOf, ChainOk;
    if steps != [] {
      StepKeepsGood(rules, s, steps[0]);
      EveryRunIsRebuilt(rules, Next(rules, s, steps[0]), steps[1..]);
    }
  }

  /** No block of the step that gets its turn fails for its size or by an exception. */
  ghost predicate Clean(rules: Rules, s: State, step: Step) {
    match step
    case Push(b, delay) => !FailsForSize(rules, s.now + delay, s, b) && !IsThrown(rules, s.now + delay, s, b)
    case SwitchTo(alt, split, plausible, delays) =>
      Proceeds(s, alt, split, plausible) ==>
        !FailsInTurn(rules, delays, 0, Below(s, split), alt) && !ThrownInTurn(rules, delays, 0, Below(s, split), alt)
    case _ => true
  }

  ghost predicate RunClean(rules: Rules, s: State, steps: seq<Step>)
    decreases |steps|
  {
    steps == [] || (Clean(rules, s, steps[0]) && RunClean(rules, Next(rules, s, steps[0]), steps[1..]))
  }

  /** Outside the checkpoint zone a step is allowed if and only if it is clean. */
  lemma AllowedOutsideZone(rules: Rules, s: State, low: nat, step: Step)
    requires Good(rules, s) && low <= |s.blocks| && Stays(low, s, step) && StepCountable(step)
             && forall k | low <= k :: !rules.inZone(k)
    ensures Allowed(rules, s, step) <==> Clean(rules, s, step)
  {
    hide Good, Fits, SwitchFits, FailsForSize, IsThrown, Proceeds, FailsInTurn, ThrownInTurn, Below, AllCountable,
         Countable, Undoable, PopTo;
    match step {
      case Push(b, delay) => PushAllowedOutside(rules, s, b, s.now + delay);
      case Pop => if s.blocks != [] { UndoableOutsideZone(rules, s, |s.blocks| - 1); }
      case RollbackTo(height) => UndoableOutsideZone(rules, s, height + 1);
      case SwitchTo(alt, split, plausible, delays) =>
        SwitchAllowedOutside(rules, delays, s, alt, split, plausible);
      case _ =>
    }
  }

  lemma SwitchAllowedOutside(rules: Rules, delays: nat -> nat, s: State, alt: seq<Block>, split: nat, plausible: bool)
    requires Good(rules, s) && AllCountable(alt) && forall k | split <= k :: !rules.inZone(k)
    ensures SwitchFits(rules, delays, s, alt, split, plausible)
            <==> Clean(rules, s, SwitchTo(alt, split, plausible, delays))
  {
    hide Good, SwitchFits, Covers, FailsInTurn, ThrownInTurn, Below, AllCountable, Switch, AllOrNothing, StepDefined;
    if Proceeds(s, alt, split, plausible) {
      SwitchIsExactOutsideZone(rules, s, alt, split, plausible, delays);
      SwitchGoodOutsideZone(rules, delays, s, alt, split);
    } else {
      StoppedFits(rules, delays, s, alt, split, plausible);
    }
  }

  lemma StoppedFits(rules: Rules, delays: nat -> nat, s: State, alt: seq<Block>, split: nat, plausible: bool)
    requires !Proceeds(s, alt, split, plausible)
    ensures SwitchFits(rules, delays, s, alt, split, plausible)
  {
  }

  lemma StaysAbove(rules: Rules, s: State, low: nat, step: Step)
    requires Good(rules, s) && low <= |s.blocks| && Stays(low, s, step) && StepCountable(step)
             && forall k | low <= k :: !rules.inZone(k)
    ensures low <= |Next(rules, s, step).blocks|
  {
    hide Good, Next, Lingering, Below, StepHandled, StepInside, Stays, StepCountable;
    var base := BaseOf(Below(s, low));
    GoodLingers(rules, s, low);
    StepLingers(rules, base, low, s, step);
    LingersAbove(rules, base, low, Next(rules, s, step));
  }

  lemma PushAllowedOutside(rules: Rules, s: State, b: Block, now: nat)
    requires Good(rules, s) && s.now <= now && (NamesTransactions(b) ==> Countable(b)) && !rules.inZone(|s.blocks|)
    ensures Fits(rules, now, s, b) <==> !FailsForSize(rules, now, s, b) && !IsThrown(rules, now, s, b)
  {
    hide Good, PushBlock, FailsForSize, IsThrown, Harmless, Countable;
    HarmlessOutsideZone(rules, now, s, b);
    if PushBlock(rules, now, s, b).1 { AcceptedNotThrown(rules, now, s, b); }
  }

  /** So the runs that are clean outside the zone are the allowed ones. */
  lemma {:induction false} CleanRunIsAllowed(rules: Rules, s: State, low: nat, steps: seq<Step>)
    requires Good(rules, s) && low <= |s.blocks| && RunStays(rules, low, s, steps)
             && forall k | low <= k :: !rules.inZone(k)
    requires forall i | 0 <= i < |steps| :: StepCountable(steps[i])
    ensures RunAllowed(rules, s, steps) <==> RunClean(rules, s, steps)
    decreases |steps|
  {
    hide Good, Next, Allowed, Clean, Stays, StepCountable;
    if steps != [] {
      AllowedOutsideZone(rules, s, low, steps[0]);
      if Allowed(rules, s, steps[0]) {
        StepKeepsGood(rules, s, steps[0]);
        StaysAbove(rules, s, low, steps[0]);
        CleanRunIsAllowed(rules, Next(rules, s, steps[0]), low, steps[1..]);
      }
    }
  }

  // ---------------------------------------------------------------------------------------------
  // The main chain keeps its transactions

  ghost predicate NamedAbove(blocks: seq<BlockEntry>, n: nat, h: Hash) {
    exists i :: n <= i < |blocks| && h in blocks[i].bl.transactionHashes
  }

  lemma {:induction false} NamedPrefix(blocks: seq<BlockEntry>, n: nat, h: Hash)
    requires n <= |blocks|
    ensures h in Named(blocks) <==> h in Named(blocks[..n]) || NamedAbove(blocks, n, h)
    decreases |blocks|
  {
    if n < |blocks| {
      var m := |blocks| - 1;
      NamedPrefix(blocks[..m], n, h);
      assert blocks[..m][..n] == blocks[..n];
      NamedAboveLast(blocks, n, h);
    } else {
      assert blocks[..n] == blocks;
    }
  }

  lemma NamedAboveLast(blocks: seq<BlockEntry>, n: nat, h: Hash)
    requires n < |blocks|
    ensures var m := |blocks| - 1;
      NamedAbove(blocks, n, h) <==> NamedAbove(blocks[..m], n, h) || h in blocks[m].bl.transactionHashes
  {
    var m := |blocks| - 1;
    if i :| n <= i < |blocks| && h in blocks[i].bl.transactionHashes {
      assert i == m || blocks[..m][i] == blocks[i];
    }
  }

  lemma {:induction false} PushAllBodies(rules: Rules, delays: nat -> nat, c: nat, s: State, bs: seq<Block>)
    requires PushAll(rules, delays, c, s, bs).1
    ensures var s' := PushAll(rules, delays, c, s, bs).0;
      && |s.blocks| <= |s'.blocks| && s'.blocks[..|s.blocks|] == s.blocks && Bodies(s'.blocks[|s.blocks|..]) == bs
    decreases |bs|
  {
    hide PushBlock, Judge;
    if bs != [] {
      var now, n := s.now + delays(c), |s.blocks|;
      var s1, s' := PushBlock(rules, now, s, bs[0]).0, PushAll(rules, delays, c, s, bs).0;
      PushExtends(rules, now, s, bs[0]);
      PushAllBodies(rules, delays, c + 1, s1, bs[1..]);
      assert s'.blocks[..n] == s'.blocks[..n + 1][..n];
      assert Bodies(s'.blocks[n..]) == [bs[0]] + Bodies(s'.blocks[n + 1..]) by {
        assert s'.blocks[n] == s'.blocks[..n + 1][n];
      }
    }
  }

  /** On any state, a switch that succeeds keeps every transaction the main chain had, because the alternative chain
      must contain them. */
  lemma SwitchKeepsTransactions(
    rules: Rules, delays: nat -> nat, s: State, alt: seq<Block>, split: nat, plausible: bool, h: Hash)
    requires Switch(rules, delays, s, alt, split, plausible).1 && h in Named(s.blocks)
    ensures h in Named(Switch(rules, delays, s, alt, split, plausible).0.blocks)
  {
    hide PushAll, PopTo, Named;
    var s' := Switch(rules, delays, s, alt, split, plausible).0;
    PopToBlocks(s, split);
    PushAllBodies(rules, delays, 0, PopTo(s, split), alt);
    NamedPrefix(s.blocks, split, h);
    NamedPrefix(s'.blocks, split, h);
    if h !in Named(s.blocks[..split]) {
      var i :| split <= i < |s.blocks| && h in s.blocks[i].bl.transactionHashes;
      var tail := s.blocks[split..];
      assert tail[i - split] == s.blocks[i];
      var j :| 0 <= j < |tail[i - split].bl.transactionHashes| && tail[i - split].bl.transactionHashes[j] == h;
      assert Contains(alt, tail[i - split].bl.transactionHashes[j]);
      var k :| 0 <= k < |alt| && h in alt[k].transactionHashes;
      assert Bodies(s'.blocks[split..])[k] == s'.blocks[split + k].bl;
    }
  }

  ghost predicate AddsOnly(steps: seq<Step>) {
    forall i | 0 <= i < |steps| :: !steps[i].Pop? && !steps[i].RollbackTo?
  }

  /** The step is a switch that failed and whose rollback did not bring back the blocks. */
  ghost predicate LosesBlocks(rules: Rules, s: State, step: Step) {
    match step
    case SwitchTo(alt, split, plausible, delays) =>
      var (s', ok) := Switch(rules, delays, s, alt, split, plausible); !ok && s'.blocks != s.blocks
    case _ => false
  }

  ghost predicate LosesNone(rules: Rules, s: State, steps: seq<Step>)
    decreases |steps|
  {
    steps == [] || (!LosesBlocks(rules, s, steps[0]) && LosesNone(rules, Next(rules, s, steps[0]), steps[1..]))
  }

  lemma StepKeepsTransactions(rules: Rules, s: State, step: Step, h: Hash)
    requires !step.Pop? && !step.RollbackTo? && !LosesBlocks(rules, s, step) && h in Named(s.blocks)
    ensures h in Named(Next(rules, s, step).blocks)
  {
    hide PushBlock, PopBlock, Switch, Named, Judge;
    match step
    case Push(b, delay) =>
      var (s', ok) := PushBlock(rules, s.now + delay, s, b);
      if ok {
        PushExtends(rules, s.now + delay, s, b);
        NamedPrefix(s'.blocks, |s.blocks|, h);
      } else {
        RefusedSameBlocks(rules, s.now + delay, s, b);
      }
    case SwitchTo(alt, split, plausible, delays) =>
      if Switch(rules, delays, s, alt, split, plausible).1 {
        SwitchKeepsTransactions(rules, delays, s, alt, split, plausible, h);
      }
    case _ =>
  }

  /** Along every run of block additions and switches in which no rollback loses blocks, from any state, a transaction
      of the main chain stays there. */
  lemma {:induction false} TransactionsNeverLeave(rules: Rules, s: State, steps: seq<Step>, h: Hash)
    requires AddsOnly(steps) && LosesNone(rules, s, steps) && h in Named(s.blocks)
    ensures h in Named(Run(rules, s, steps).blocks)
    decreases |steps|
  {
    hide Next, LosesBlocks, Named;
    if steps != [] {
      StepKeepsTransactions(rules, s, steps[0], h);
      TransactionsNeverLeave(rules, Next(rules, s, steps[0]), steps[1..], h);
    }
  }

  /** And allowed runs lose no blocks. */
  lemma {:induction false} AllowedLosesNone(rules: Rules, s: State, steps: seq<Step>)
    requires Good(rules, s) && RunAllowed(rules, s, steps)
    ensures LosesNone(rules, s, steps)
    decreases |steps|
  {
    hide Good, Next, Allowed, LosesBlocks;
    if steps != [] {
      StepKeepsGood(rules, s, steps[0]);
      AllowedKeepsBlocks(rules, s, steps[0]);
      AllowedLosesNone(rules, Next(rules, s, steps[0]), steps[1..]);
    }
  }

  lemma AllowedKeepsBlocks(rules: Rules, s: State, step: Step)
    requires Good(rules, s) && Allowed(rules, s, step)
    ensures !LosesBlocks(rules, s, step)
  {
    hide Good, Allowed, Next, StepDefined, Switch;
    AllowedIsDefined(rules, s, step);
    StepIsExact(rules, s, step);
  }

  /** So outside the checkpoint zone no transaction leaves the main chain along a run of additions and switches in
      which no block that gets its turn fails for its size or by an exception. */
  lemma NeverLeaveOutsideZone(rules: Rules, s: State, low: nat, steps: seq<Step>, h: Hash)
    requires Good(rules, s) && low <= |s.blocks| && RunStays(rules, low, s, steps)
             && forall k | low <= k :: !rules.inZone(k)
    requires forall i | 0 <= i < |steps| :: StepCountable(steps[i])
    requires AddsOnly(steps) && RunClean(rules, s, steps) && h in Named(s.blocks)
    ensures h in Named(Run(rules, s, steps).blocks) && Good(rules, Run(rules, s, steps))
  {
    hide Good, RunStays, RunClean, RunAllowed, LosesNone, StepCountable, Named;
    CleanRunIsAllowed(rules, s, low, steps);
    AllowedLosesNone(rules, s, steps);
    TransactionsNeverLeave(rules, s, steps, h);
    EveryRunIsRebuilt(rules, s, steps);
  }
}
