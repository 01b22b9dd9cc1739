/**
 * The values the Bitcoin chainhook engine works on: chain events, blocks,
 * transactions with their outputs and Stacks side-operations, and the
 * chainhook specifications (predicate plus action) that subscribe to them.
 */
module BitcoinTypes {

  /** An unsigned 8-bit value. */
  type Byte = b: int | 0 <= b < 256

  datatype BlockIdentifier = BlockIdentifier(index: nat, hash: string)

  datatype TransactionIdentifier = TransactionIdentifier(hash: string)

  /** A transaction output; `script_pubkey` is the hex text of its locking script. */
  datatype TxOut = TxOut(value: nat, script_pubkey: string)

  datatype PoxReward = PoxReward(recipient: string, amount: nat)

  datatype PobBlockCommitmentData = PobBlockCommitmentData(signers: seq<string>, stacks_block_hash: string, amount: nat)

  datatype PoxBlockCommitmentData = PoxBlockCommitmentData(signers: seq<string>, stacks_block_hash: string, rewards: seq<PoxReward>)

  datatype KeyRegistrationData = KeyRegistrationData

  datatype TransferSTXData = TransferSTXData(sender: string, recipient: string, amount: nat)

  datatype LockSTXData = LockSTXData(sender: string, amount: nat, duration: nat)

  /** The Stacks operations a Bitcoin transaction can carry. */
  datatype StacksBaseChainOperation =
    | PobBlockCommitment(pob: PobBlockCommitmentData)
    | PoxBlockCommitment(pox: PoxBlockCommitmentData)
    | KeyRegistration(key: KeyRegistrationData)
    | TransferSTX(transfer: TransferSTXData)
    | LockSTX(lock: LockSTXData)

  datatype BitcoinTransactionMetadata =
    BitcoinTransactionMetadata(outputs: seq<TxOut>, stacks_operations: seq<StacksBaseChainOperation>)

  datatype BitcoinTransactionData =
    BitcoinTransactionData(transaction_identifier: TransactionIdentifier, metadata: BitcoinTransactionMetadata)

  datatype BitcoinBlockData =
    BitcoinBlockData(block_identifier: BlockIdentifier, transactions: seq<BitcoinTransactionData>)

  /** Forward progress of the chain, or a reorganisation that rolls blocks back and applies others. */
  datatype BitcoinChainEvent =
    | ChainUpdatedWithBlocks(new_blocks: seq<BitcoinBlockData>)
    | ChainUpdatedWithReorg(blocks_to_apply: seq<BitcoinBlockData>, blocks_to_rollback: seq<BitcoinBlockData>)

  /** A string rule: the whole string, a prefix or a suffix. */
  datatype MatchingRule = Equals(value: string) | StartsWith(prefix: string) | EndsWith(suffix: string)

  datatype PoxPredicate = PoxAny | Recipient(rule: MatchingRule)

  /**
   * The predicate kinds. The single-variant rules of the source (an exact
   * `Equals` for identifiers and addresses, `Any` for the side-operation
   * kinds) are folded into the variants that use them.
   */
  datatype BitcoinPredicateType =
    | TransactionIdentifierHash(txid: string)
    | OpReturn(rule: MatchingRule)
    | P2pkh(address: string)
    | P2sh(address: string)
    | P2wpkh(address: string)
    | P2wsh(address: string)
    | PobAny
    | Pox(pox: PoxPredicate)
    | KeyRegistrationAny
    | TransferSTXAny
    | LockSTXAny

  datatype BitcoinTransactionFilterPredicate = BitcoinTransactionFilterPredicate(kind: BitcoinPredicateType)

  datatype HttpHook = HttpHook(url: string, http_method: string, authorization_header: string)

  datatype FileHook = FileHook(path: string)

  datatype HookAction = Http(http: HttpHook) | File(disk: FileHook) | Noop

  /** A subscription: what to match (`filter`, the source's `predicate` field) and what to do when something matches. */
  datatype BitcoinChainhookSpecification =
    BitcoinChainhookSpecification(uuid: string, filter: BitcoinTransactionFilterPredicate, action: HookAction)
}
