/**
 * The predicate evaluator: does one chainhook's predicate hold of one
 * transaction? `Matches` is the reference definition, one existential per
 * predicate kind; `EvaluateTransactionPredicate` is the evaluator, a dispatch
 * whose arms are scans that stop at the first hit, proved against it.
 */
module Predicates {
  import opened Wrappers
  import opened BitcoinTypes
  import Script

  /** Raised where the source panics: the address does not decode, or decodes to fewer than 21 bytes. */
  datatype EvaluationError = InvalidAddressEncoding

  /** Base58 decoding of an address; the decoder itself is supplied by the caller. */
  type Base58Decoder = string -> Option<seq<Byte>>

  /** Whether `s` satisfies the string rule. */
  predicate RuleHolds(rule: MatchingRule, s: string): (holds: bool)
    ensures rule.Equals? ==> (holds <==> |s| == |rule.value| && forall i :: 0 <= i < |s| ==> s[i] == rule.value[i])
    ensures rule.StartsWith? ==>
              (holds <==> |rule.prefix| <= |s| && forall i :: 0 <= i < |rule.prefix| ==> s[i] == rule.prefix[i])
    ensures rule.EndsWith? ==>
              (holds <==> |rule.suffix| <= |s| && forall i :: 0 <= i < |rule.suffix| ==> s[|s| - |rule.suffix| + i] == rule.suffix[i])
  {
    match rule
    case Equals(t) => s == t
    case StartsWith(t) => t <= s
    case EndsWith(t) => |t| <= |s| && s[|s| - |t|..] == t
  }

  /** The side-operation variants that `Any` predicates look for. */
  datatype OperationKind = PobCommitment | PoxCommitment | KeyRegistrationOperation | TransferSTXOperation | LockSTXOperation

  /** The kind of a side operation: every operation has exactly one. */
  function KindOf(op: StacksBaseChainOperation): OperationKind {
    match op
    case PobBlockCommitment(_) => PobCommitment
    case PoxBlockCommitment(_) => PoxCommitment
    case KeyRegistration(_) => KeyRegistrationOperation
    case TransferSTX(_) => TransferSTXOperation
    case LockSTX(_) => LockSTXOperation
  }

  /** The variant test of the source's `if let` scans. */
  predicate IsOperationOfKind(op: StacksBaseChainOperation, kind: OperationKind): (matches: bool)
    ensures matches <==> KindOf(op) == kind
  {
    match kind
    case PobCommitment => op.PobBlockCommitment?
    case PoxCommitment => op.PoxBlockCommitment?
    case KeyRegistrationOperation => op.KeyRegistration?
    case TransferSTXOperation => op.TransferSTX?
    case LockSTXOperation => op.LockSTX?
  }

  ghost predicate SomeOutput(outputs: seq<TxOut>, rule: MatchingRule) {
    exists i :: 0 <= i < |outputs| && RuleHolds(rule, outputs[i].script_pubkey)
  }

  ghost predicate SomeOperation(ops: seq<StacksBaseChainOperation>, kind: OperationKind) {
    exists i :: 0 <= i < |ops| && IsOperationOfKind(ops[i], kind)
  }

  ghost predicate SomeRewardRecipient(ops: seq<StacksBaseChainOperation>, rule: MatchingRule) {
    exists i, j :: 0 <= i < |ops| && ops[i].PoxBlockCommitment? && 0 <= j < |ops[i].pox.rewards|
                   && RuleHolds(rule, ops[i].pox.rewards[j].recipient)
  }

  /** The address decodes to at least a version byte and a 20-byte hash. */
  ghost predicate AddressDecodes(address: string, decode: Base58Decoder) {
    decode(address).Some? && |decode(address).value| >= 21
  }

  /** Evaluation of this predicate kind cannot fail. */
  ghost predicate Decodable(kind: BitcoinPredicateType, decode: Base58Decoder) {
    match kind
    case P2pkh(address) => AddressDecodes(address, decode)
    case P2sh(address) => AddressDecodes(address, decode)
    case _ => true
  }

  /** The hex text of the P2PKH script for a decoded address: its bytes 1 to 20 are the hash. */
  function P2pkhHex(decoded: seq<Byte>): (text: string)
    requires |decoded| >= 21
    ensures text == "76a914" + Script.Hex(decoded[1..21]) + "88ac"
  {
    Script.P2pkhHexLayout(decoded[1..21]);
    Script.Hex(Script.P2pkhScript(decoded[1..21]))
  }

  /** The hex text of the P2SH script for a decoded address. */
  function P2shHex(decoded: seq<Byte>): (text: string)
    requires |decoded| >= 21
    ensures text == "a914" + Script.Hex(decoded[1..21]) + "87"
  {
    Script.P2shHexLayout(decoded[1..21]);
    Script.Hex(Script.P2shScript(decoded[1..21]))
  }

  /**
   * Reference meaning of every predicate kind. An address that does not
   * decode matches nothing here; the evaluator reports it as an error.
   */
  ghost predicate Matches(spec: BitcoinChainhookSpecification, tx: BitcoinTransactionData, decode: Base58Decoder) {
    var outputs := tx.metadata.outputs;
    var ops := tx.metadata.stacks_operations;
    match spec.filter.kind
    case TransactionIdentifierHash(txid) => tx.transaction_identifier.hash == txid
    case OpReturn(rule) => SomeOutput(outputs, rule)
    case P2pkh(address) =>
      AddressDecodes(address, decode) && SomeOutput(outputs, Equals(P2pkhHex(decode(address).value)))
    case P2sh(address) =>
      AddressDecodes(address, decode) && SomeOutput(outputs, Equals(P2shHex(decode(address).value)))
    case P2wpkh(_) => false
    case P2wsh(_) => false
    case PobAny => SomeOperation(ops, PobCommitment)
    case Pox(PoxAny) => SomeOperation(ops, PoxCommitment)
    case Pox(Recipient(rule)) => SomeRewardRecipient(ops, rule)
    case KeyRegistrationAny => SomeOperation(ops, KeyRegistrationOperation)
    case TransferSTXAny => SomeOperation(ops, TransferSTXOperation)
    case LockSTXAny => SomeOperation(ops, LockSTXOperation)
  }

  /** Scans the outputs in order and stops at the first script that satisfies the rule. */
  method AnyOutputMatches(outputs: seq<TxOut>, rule: MatchingRule) returns (found: bool)
    ensures found <==> SomeOutput(outputs, rule)
  {
    for i := 0 to |outputs|
      invariant forall k :: 0 <= k < i ==> !RuleHolds(rule, outputs[k].script_pubkey)
    {
      if RuleHolds(rule, outputs[i].script_pubkey) {
        return true;
      }
    }
    return false;
  }

  /** Scans the side-operations in order and stops at the first one of the kind. */
  method AnyOperationOfKind(ops: seq<StacksBaseChainOperation>, kind: OperationKind) returns (found: bool)
    ensures found <==> SomeOperation(ops, kind)
  {
    for i := 0 to |ops|
      invariant forall k :: 0 <= k < i ==> !IsOperationOfKind(ops[k], kind)
    {
      if IsOperationOfKind(ops[i], kind) {
        return true;
      }
    }
    return false;
  }

  /** Scans the rewards of every PoX commitment in order and stops at the first matching recipient. */
  method AnyRewardRecipient(ops: seq<StacksBaseChainOperation>, rule: MatchingRule) returns (found: bool)
    ensures found <==> SomeRewardRecipient(ops, rule)
  {
    for i := 0 to |ops|
      invariant !SomeRewardRecipient(ops[..i], rule)
    {
      if ops[i].PoxBlockCommitment? {
        var rewards := ops[i].pox.rewards;
        for j := 0 to |rewards|
          invariant forall k :: 0 <= k < j ==> !RuleHolds(rule, rewards[k].recipient)
        {
          if RuleHolds(rule, rewards[j].recipient) {
            return true;
          }
        }
      }
      assert forall k :: 0 <= k < i + 1 ==> ops[..i + 1][k] == ops[k];
    }
    assert ops[..|ops|] == ops;
    return false;
  }

  /**
   * The evaluator. An address predicate decodes its address before scanning,
   * so an undecodable address fails whatever the transaction holds; every
   * other kind succeeds with the reference meaning.
   */
  method EvaluateTransactionPredicate(spec: BitcoinChainhookSpecification, tx: BitcoinTransactionData, decode: Base58Decoder)
    returns (r: Result<bool, EvaluationError>)
    ensures r.Failure? <==> !Decodable(spec.filter.kind, decode)
    ensures r.Failure? ==> spec.filter.kind.P2pkh? || spec.filter.kind.P2sh?
    ensures r.Success? ==> r.value == Matches(spec, tx, decode)
    ensures spec.filter.kind.P2wpkh? || spec.filter.kind.P2wsh? ==> r == Success(false)
  {
    var outputs := tx.metadata.outputs;
    var ops := tx.metadata.stacks_operations;
    match spec.filter.kind {
      case TransactionIdentifierHash(txid) =>
        r := Success(tx.transaction_identifier.hash == txid);
      case OpReturn(rule) =>
        var found := AnyOutputMatches(outputs, rule);
        r := Success(found);
      case P2pkh(address) =>
        var decoded := decode(address);
        if decoded.None? || |decoded.value| < 21 {
          return Failure(InvalidAddressEncoding);
        }
        var found := AnyOutputMatches(outputs, Equals(P2pkhHex(decoded.value)));
        r := Success(found);
      case P2sh(address) =>
        var decoded := decode(address);
        if decoded.None? || |decoded.value| < 21 {
          return Failure(InvalidAddressEncoding);
        }
        var found := AnyOutputMatches(outputs, Equals(P2shHex(decoded.value)));
        r := Success(found);
      case P2wpkh(_) =>
        r := Success(false);
      case P2wsh(_) =>
        r := Success(false);
      case PobAny =>
        var found := AnyOperationOfKind(ops, PobCommitment);
        r := Success(found);
      case Pox(PoxAny) =>
        var found := AnyOperationOfKind(ops, PoxCommitment);
        r := Success(found);
      case Pox(Recipient(rule)) =>
        var found := AnyRewardRecipient(ops, rule);
        r := Success(found);
      case KeyRegistrationAny =>
        var found := AnyOperationOfKind(ops, KeyRegistrationOperation);
        r := Success(found);
      case TransferSTXAny =>
        var found := AnyOperationOfKind(ops, TransferSTXOperation);
        r := Success(found);
      case LockSTXAny =>
        var found := AnyOperationOfKind(ops, LockSTXOperation);
        r := Success(found);
    }
  }

  /**
   * Two P2PKH predicates that both match through the same output were given
   * addresses carrying the same 20-byte hash, whatever their version bytes
   * and trailing bytes.
   */
  lemma P2pkhOutputDeterminesHash(a1: string, a2: string, out: TxOut, decode: Base58Decoder)
    requires AddressDecodes(a1, decode) && AddressDecodes(a2, decode)
    requires out.script_pubkey == P2pkhHex(decode(a1).value)
    requires out.script_pubkey == P2pkhHex(decode(a2).value)
    ensures decode(a1).value[1..21] == decode(a2).value[1..21]
  {
    Script.P2pkhHexDeterminesHash(decode(a1).value[1..21], decode(a2).value[1..21]);
  }

  /** The same for P2SH predicates. */
  lemma P2shOutputDeterminesHash(a1: string, a2: string, out: TxOut, decode: Base58Decoder)
    requires AddressDecodes(a1, decode) && AddressDecodes(a2, decode)
    requires out.script_pubkey == P2shHex(decode(a1).value)
    requires out.script_pubkey == P2shHex(decode(a2).value)
    ensures decode(a1).value[1..21] == decode(a2).value[1..21]
  {
    Script.P2shHexDeterminesHash(decode(a1).value[1..21], decode(a2).value[1..21]);
  }

  /** A transaction with a single output never matches both a P2PKH and a P2SH predicate. */
  lemma P2pkhAndP2shExclusive(s1: BitcoinChainhookSpecification, s2: BitcoinChainhookSpecification,
                              tx: BitcoinTransactionData, decode: Base58Decoder)
    requires s1.filter.kind.P2pkh? && s2.filter.kind.P2sh?
    requires |tx.metadata.outputs| == 1
    ensures !(Matches(s1, tx, decode) && Matches(s2, tx, decode))
  {
    if Matches(s1, tx, decode) && Matches(s2, tx, decode) {
      var d1, d2 := decode(s1.filter.kind.address).value, decode(s2.filter.kind.address).value;
      Script.P2pkhAndP2shDiffer(d1[1..21], d2[1..21]);
    }
  }

  /** Prefix matching on script text: the rule `aa` accepts `aabb` and rejects `bbaa`. */
  lemma OpReturnPrefixExample(spec: BitcoinChainhookSpecification, id: TransactionIdentifier, decode: Base58Decoder)
    requires spec.filter.kind == OpReturn(StartsWith("aa"))
    ensures Matches(spec, BitcoinTransactionData(id, BitcoinTransactionMetadata([TxOut(0, "aabb")], [])), decode)
    ensures !Matches(spec, BitcoinTransactionData(id, BitcoinTransactionMetadata([TxOut(0, "bbaa")], [])), decode)
  {
    assert RuleHolds(StartsWith("aa"), [TxOut(0, "aabb")][0].script_pubkey);
    var other := [TxOut(0, "bbaa")];
    assert !RuleHolds(StartsWith("aa"), other[0].script_pubkey) by {
      assert other[0].script_pubkey[0] == 'b';
    }
  }
}
