/** The records of the chain: transactions, blocks, and the entries the blockchain stores for them.
    A hash is symbolic: it names the object it was computed from, so equal hashes mean equal objects. */
module ChainTypes {

  const TWO64: int := 0x1_0000_0000_0000_0000
  const TWO32: int := 0x1_0000_0000

  type u64 = x: int | 0 <= x < 0x1_0000_0000_0000_0000
  type u32 = x: int | 0 <= x < 0x1_0000_0000
  type u16 = x: int | 0 <= x < 0x1_0000

  datatype Option<+T> = None | Some(value: T)

  datatype Input =
    | BaseInput(blockIndex: nat)
    | KeyInput(amount: u64, outputIndexes: seq<u32>, keyImage: nat)
    | MultisigInput(amount: u64, signatureCount: nat, outputIndex: nat)

  datatype Target = KeyTarget(key: nat) | MultisigTarget(keys: seq<nat>, required: nat)

  datatype Output = Output(amount: u64, target: Target)

  /** `blobSize` is the binary size and `paymentId` what the explorer parses out of `extra`;
      `rest` stands for the version, the extra bytes and the signatures. */
  datatype Transaction = Transaction(
    unlockTime: nat, inputs: seq<Input>, outputs: seq<Output>,
    paymentId: Option<nat>, blobSize: nat, rest: nat)

  datatype Hash = NullHash | OfTransaction(tx: Transaction) | OfBlock(block: Block) | OfNothing(n: nat)

  /** `header` stands for the versions and the nonce. */
  datatype Block = Block(
    previous: Hash, timestamp: u64, header: nat,
    baseTransaction: Transaction, transactionHashes: seq<Hash>)

  datatype TransactionIndex = TransactionIndex(block: nat, transaction: nat)

  datatype TransactionEntry = TransactionEntry(tx: Transaction, globalIndexes: seq<nat>)

  datatype BlockEntry = BlockEntry(
    bl: Block, height: nat, cumulativeSize: nat, cumulativeDifficulty: u64,
    generatedCoins: u64, transactions: seq<TransactionEntry>)

  /** A key output in a per-amount vector. */
  datatype OutputRef = OutputRef(at: TransactionIndex, output: nat)

  datatype MultisigUsage = MultisigUsage(at: TransactionIndex, output: nat, isUsed: bool)

  /** Everything `rebuildCache` recomputes from the blocks, and the payment-id index.
      `indexed` says whether the explorer indexes are enabled. */
  datatype Derived = Derived(
    indexed: bool,
    transactions: map<Hash, TransactionIndex>,
    spentKeys: set<nat>,
    outputs: map<nat, seq<OutputRef>>,
    multisigs: map<nat, seq<MultisigUsage>>,
    payments: multiset<(nat, Hash)>)

  function EmptyDerived(indexed: bool): Derived {
    Derived(indexed, map[], {}, map[], map[], multiset{})
  }

  function Wrap64(x: int): u64 {
    x % TWO64
  }

  lemma NoWrap(x: int)
    requires 0 <= x < TWO64
    ensures Wrap64(x) == x
  {
  }

  lemma WrapSum(x: int, y: int)
    ensures Wrap64(x + Wrap64(y)) == Wrap64(x + y)
  {
  }

  lemma WrapDifference(x: int, y: int)
    ensures Wrap64(x - Wrap64(y)) == Wrap64(x - y)
  {
  }
}
