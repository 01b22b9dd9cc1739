/**
 * The chain-event evaluator: for each active chainhook, scan the blocks of a
 * chain event, block by block and transaction by transaction, collect the
 * matching (transaction, block identifier) pairs, and emit a trigger only
 * when something matched. `Triggers` is the reference result; the method
 * `EvaluateBitcoinChainhooksOnChainEvent` is the nested loop proved against it.
 */
module ChainEvaluation {
  import opened Wrappers
  import opened BitcoinTypes
  import opened Predicates

  /** A matched transaction with the identifier of the block that carries it. */
  datatype Entry = Entry(transaction: BitcoinTransactionData, block_identifier: BlockIdentifier)

  /** The matches of one chainhook in one chain event. */
  datatype BitcoinTriggerChainhook =
    BitcoinTriggerChainhook(chainhook: BitcoinChainhookSpecification, apply: seq<Entry>, rollback: seq<Entry>)

  /** The pairs of one block, in transaction order. */
  ghost function BlockEntries(block: BitcoinBlockData): seq<Entry> {
    seq(|block.transactions|, i requires 0 <= i < |block.transactions| => Entry(block.transactions[i], block.block_identifier))
  }

  /** The pairs of a block sequence: block order, then transaction order within a block. */
  ghost function Pairs(blocks: seq<BitcoinBlockData>): seq<Entry> {
    if blocks == [] then [] else BlockEntries(blocks[0]) + Pairs(blocks[1..])
  }

  /** The pairs whose transaction the chainhook's predicate matches, in their original order. */
  ghost function Filter(h: BitcoinChainhookSpecification, es: seq<Entry>, decode: Base58Decoder): seq<Entry> {
    if es == [] then []
    else (if Matches(h, es[0].transaction, decode) then [es[0]] else []) + Filter(h, es[1..], decode)
  }

  /** The trigger a single chainhook yields for an event: none, or one with something in it. */
  ghost function TriggerFor(event: BitcoinChainEvent, h: BitcoinChainhookSpecification, decode: Base58Decoder)
    : seq<BitcoinTriggerChainhook>
  {
    match event
    case ChainUpdatedWithBlocks(blocks) =>
      var apply := Filter(h, Pairs(blocks), decode);
      if apply != [] then [BitcoinTriggerChainhook(h, apply, [])] else []
    case ChainUpdatedWithReorg(toApply, toRollback) =>
      var apply := Filter(h, Pairs(toApply), decode);
      var rollback := Filter(h, Pairs(toRollback), decode);
      if apply != [] || rollback != [] then [BitcoinTriggerChainhook(h, apply, rollback)] else []
  }

  /** The triggers of all active chainhooks, in the order of the active chainhooks. */
  ghost function Triggers(event: BitcoinChainEvent, active: seq<BitcoinChainhookSpecification>, decode: Base58Decoder)
    : seq<BitcoinTriggerChainhook>
  {
    if active == [] then [] else TriggerFor(event, active[0], decode) + Triggers(event, active[1..], decode)
  }

  ghost predicate HasTransaction(blocks: seq<BitcoinBlockData>) {
    exists b :: 0 <= b < |blocks| && blocks[b].transactions != []
  }

  /** Some block the evaluator scans holds a transaction, so every predicate gets evaluated. */
  ghost predicate ScansTransaction(event: BitcoinChainEvent) {
    match event
    case ChainUpdatedWithBlocks(blocks) => HasTransaction(blocks)
    case ChainUpdatedWithReorg(toApply, toRollback) => HasTransaction(toApply) || HasTransaction(toRollback)
  }

  lemma {:induction false} FilterAppend(h: BitcoinChainhookSpecification, a: seq<Entry>, b: seq<Entry>, decode: Base58Decoder)
    ensures Filter(h, a + b, decode) == Filter(h, a, decode) + Filter(h, b, decode)
  {
    if a == [] {
      assert a + b == b;
    } else {
      assert (a + b)[1..] == a[1..] + b;
      FilterAppend(h, a[1..], b, decode);
    }
  }

  lemma {:induction false} PairsAppend(a: seq<BitcoinBlockData>, b: seq<BitcoinBlockData>)
    ensures Pairs(a + b) == Pairs(a) + Pairs(b)
  {
    if a == [] {
      assert a + b == b;
    } else {
      assert (a + b)[1..] == a[1..] + b;
      PairsAppend(a[1..], b);
    }
  }

  lemma {:induction false} TriggersAppend(event: BitcoinChainEvent, a: seq<BitcoinChainhookSpecification>,
                                          b: seq<BitcoinChainhookSpecification>, decode: Base58Decoder)
    ensures Triggers(event, a + b, decode) == Triggers(event, a, decode) + Triggers(event, b, decode)
  {
    if a == [] {
      assert a + b == b;
    } else {
      assert (a + b)[1..] == a[1..] + b;
      TriggersAppend(event, a[1..], b, decode);
    }
  }

  /** Scanning one more block appends that block's matches. */
  lemma PairsSnoc(blocks: seq<BitcoinBlockData>, b: nat)
    requires b < |blocks|
    ensures Pairs(blocks[..b + 1]) == Pairs(blocks[..b]) + BlockEntries(blocks[b])
  {
    assert blocks[..b + 1] == blocks[..b] + [blocks[b]];
    PairsAppend(blocks[..b], [blocks[b]]);
    assert [blocks[b]][1..] == [];
  }

  /** Scans one block's transactions in order, collecting the matches. */
  method CollectBlockMatches(h: BitcoinChainhookSpecification, block: BitcoinBlockData, decode: Base58Decoder)
    returns (r: Result<seq<Entry>, EvaluationError>)
    ensures r.Failure? <==> block.transactions != [] && !Decodable(h.filter.kind, decode)
    ensures r.Success? ==> r.value == Filter(h, BlockEntries(block), decode)
  {
    ghost var entries := BlockEntries(block);
    var matched: seq<Entry> := [];
    for t := 0 to |block.transactions|
      invariant matched == Filter(h, entries[..t], decode)
      invariant Decodable(h.filter.kind, decode) || t == 0
    {
      var tx := block.transactions[t];
      var ok := EvaluateTransactionPredicate(h, tx, decode);
      if ok.Failure? {
        return Failure(ok.error);
      }
      assert entries[..t + 1] == entries[..t] + [Entry(tx, block.block_identifier)];
      FilterAppend(h, entries[..t], [Entry(tx, block.block_identifier)], decode);
      assert [Entry(tx, block.block_identifier)][1..] == [];
      if ok.value {
        matched := matched + [Entry(tx, block.block_identifier)];
      }
    }
    assert entries[..|block.transactions|] == entries;
    return Success(matched);
  }

  /** Scans the blocks in order, and each block's transactions in order, collecting the matches. */
  method CollectMatches(h: BitcoinChainhookSpecification, blocks: seq<BitcoinBlockData>, decode: Base58Decoder)
    returns (r: Result<seq<Entry>, EvaluationError>)
    ensures r.Failure? <==> HasTransaction(blocks) && !Decodable(h.filter.kind, decode)
    ensures r.Success? ==> r.value == Filter(h, Pairs(blocks), decode)
  {
    var matched: seq<Entry> := [];
    for b := 0 to |blocks|
      invariant matched == Filter(h, Pairs(blocks[..b]), decode)
      invariant Decodable(h.filter.kind, decode) || forall k :: 0 <= k < b ==> blocks[k].transactions == []
    {
      var found := CollectBlockMatches(h, blocks[b], decode);
      if found.Failure? {
        return Failure(found.error);
      }
      PairsSnoc(blocks, b);
      FilterAppend(h, Pairs(blocks[..b]), BlockEntries(blocks[b]), decode);
      matched := matched + found.value;
    }
    assert blocks[..|blocks|] == blocks;
    return Success(matched);
  }

  /** One chainhook's pass over the event: the body of the source's loop over active chainhooks. */
  method EvaluateChainhook(event: BitcoinChainEvent, h: BitcoinChainhookSpecification, decode: Base58Decoder)
    returns (r: Result<seq<BitcoinTriggerChainhook>, EvaluationError>)
    ensures r.Failure? <==> ScansTransaction(event) && !Decodable(h.filter.kind, decode)
    ensures r.Success? ==> r.value == TriggerFor(event, h, decode)
  {
    match event {
      case ChainUpdatedWithBlocks(blocks) =>
        var apply := CollectMatches(h, blocks, decode);
        if apply.Failure? {
          return Failure(apply.error);
        }
        if apply.value != [] {
          return Success([BitcoinTriggerChainhook(h, apply.value, [])]);
        }
        return Success([]);
      case ChainUpdatedWithReorg(toApply, toRollback) =>
        var apply := CollectMatches(h, toApply, decode);
        if apply.Failure? {
          return Failure(apply.error);
        }
        var rollback := CollectMatches(h, toRollback, decode);
        if rollback.Failure? {
          return Failure(rollback.error);
        }
        if apply.value != [] || rollback.value != [] {
          return Success([BitcoinTriggerChainhook(h, apply.value, rollback.value)]);
        }
        return Success([]);
    }
  }

  /**
   * The evaluator. A chainhook whose address cannot be decoded aborts the
   * whole pass as soon as its predicate meets a transaction, as the source's
   * panic does; otherwise the result is the reference list of triggers.
   */
  method EvaluateBitcoinChainhooksOnChainEvent(event: BitcoinChainEvent, active: seq<BitcoinChainhookSpecification>,
                                               decode: Base58Decoder)
    returns (r: Result<seq<BitcoinTriggerChainhook>, EvaluationError>)
    ensures r.Failure? <==>
              ScansTransaction(event) && exists j :: 0 <= j < |active| && !Decodable(active[j].filter.kind, decode)
    ensures r.Success? ==> r.value == Triggers(event, active, decode)
  {
    var triggered: seq<BitcoinTriggerChainhook> := [];
    for i := 0 to |active|
      invariant triggered == Triggers(event, active[..i], decode)
      invariant forall j :: 0 <= j < i ==> Decodable(active[j].filter.kind, decode) || !ScansTransaction(event)
    {
      var h := active[i];
      var found := EvaluateChainhook(event, h, decode);
      if found.Failure? {
        return Failure(found.error);
      }
      triggered := triggered + found.value;
      TriggersSnoc(event, active, i, decode);
    }
    assert active[..|active|] == active;
    return Success(triggered);
  }

  lemma TriggersSnoc(event: BitcoinChainEvent, active: seq<BitcoinChainhookSpecification>, i: nat, decode: Base58Decoder)
    requires i < |active|
    ensures Triggers(event, active[..i + 1], decode) == Triggers(event, active[..i], decode) + TriggerFor(event, active[i], decode)
  {
    assert active[..i + 1] == active[..i] + [active[i]];
    TriggersAppend(event, active[..i], [active[i]], decode);
    assert [active[i]][1..] == [];
  }

  // Properties of the reference result.

  /**
   * The filter keeps every matching pair as often as it occurs and drops every
   * other pair: nothing is invented, lost or deduplicated.
   */
  lemma {:induction false} FilterMultiplicity(h: BitcoinChainhookSpecification, es: seq<Entry>, decode: Base58Decoder, e: Entry)
    ensures multiset(Filter(h, es, decode))[e] == if Matches(h, e.transaction, decode) then multiset(es)[e] else 0
  {
    if es != [] {
      FilterMultiplicity(h, es[1..], decode, e);
      assert es == [es[0]] + es[1..];
      assert multiset(es) == multiset([es[0]]) + multiset(es[1..]);
    }
  }

  /** Soundness and completeness of the filter. */
  lemma FilterMembership(h: BitcoinChainhookSpecification, es: seq<Entry>, decode: Base58Decoder, e: Entry)
    ensures e in Filter(h, es, decode) <==> e in es && Matches(h, e.transaction, decode)
  {
    FilterMultiplicity(h, es, decode, e);
  }

  /** When every pair matches, the filter returns the pairs unchanged. */
  lemma {:induction false} FilterKeepsAll(h: BitcoinChainhookSpecification, es: seq<Entry>, decode: Base58Decoder)
    requires forall i :: 0 <= i < |es| ==> Matches(h, es[i].transaction, decode)
    ensures Filter(h, es, decode) == es
  {
    if es != [] {
      FilterKeepsAll(h, es[1..], decode);
    }
  }

  /** When no pair matches, the filter returns nothing. */
  lemma {:induction false} FilterDropsAll(h: BitcoinChainhookSpecification, es: seq<Entry>, decode: Base58Decoder)
    requires forall i :: 0 <= i < |es| ==> !Matches(h, es[i].transaction, decode)
    ensures Filter(h, es, decode) == []
  {
    if es != [] {
      FilterDropsAll(h, es[1..], decode);
    }
  }

  /** A pair of a block sequence is a transaction of one of its blocks, with that block's identifier. */
  lemma {:induction false} PairsMembership(blocks: seq<BitcoinBlockData>, e: Entry)
    ensures e in Pairs(blocks) <==>
              exists b, t :: 0 <= b < |blocks| && 0 <= t < |blocks[b].transactions|
                             && e == Entry(blocks[b].transactions[t], blocks[b].block_identifier)
  {
    if blocks != [] {
      PairsMembership(blocks[1..], e);
      var es := BlockEntries(blocks[0]);
      if e in es {
        var t :| 0 <= t < |es| && es[t] == e;
        assert e == Entry(blocks[0].transactions[t], blocks[0].block_identifier);
      }
      if e in Pairs(blocks[1..]) {
        var b, t :| 0 <= b < |blocks[1..]| && 0 <= t < |blocks[1..][b].transactions|
                    && e == Entry(blocks[1..][b].transactions[t], blocks[1..][b].block_identifier);
        assert blocks[1..][b] == blocks[b + 1];
      }
      if exists b, t :: 0 <= b < |blocks| && 0 <= t < |blocks[b].transactions|
                        && e == Entry(blocks[b].transactions[t], blocks[b].block_identifier) {
        var b, t :| 0 <= b < |blocks| && 0 <= t < |blocks[b].transactions|
                    && e == Entry(blocks[b].transactions[t], blocks[b].block_identifier);
        if b == 0 {
          assert es[t] == e;
        } else {
          assert blocks[1..][b - 1] == blocks[b];
        }
      }
    }
  }

  /** Every trigger is the trigger of one of the active chainhooks. */
  lemma {:induction false} TriggersMembership(event: BitcoinChainEvent, active: seq<BitcoinChainhookSpecification>,
                                              decode: Base58Decoder, t: BitcoinTriggerChainhook)
    requires t in Triggers(event, active, decode)
    ensures exists j :: 0 <= j < |active| && TriggerFor(event, active[j], decode) == [t]
  {
    if t in TriggerFor(event, active[0], decode) {
      assert TriggerFor(event, active[0], decode) == [t];
    } else {
      TriggersMembership(event, active[1..], decode, t);
      var j :| 0 <= j < |active[1..]| && TriggerFor(event, active[1..][j], decode) == [t];
      assert active[1..][j] == active[j + 1];
    }
  }

  /**
   * Forward progress: every trigger has an empty rollback and a non-empty
   * apply that is exactly its chainhook's matches among the new blocks.
   */
  lemma ForwardProgressTriggers(blocks: seq<BitcoinBlockData>, active: seq<BitcoinChainhookSpecification>,
                                decode: Base58Decoder, t: BitcoinTriggerChainhook)
    requires t in Triggers(ChainUpdatedWithBlocks(blocks), active, decode)
    ensures t.rollback == [] && t.apply != []
    ensures t.apply == Filter(t.chainhook, Pairs(blocks), decode)
  {
    TriggersMembership(ChainUpdatedWithBlocks(blocks), active, decode, t);
  }

  /**
   * Reorganisation: the apply entries are the chainhook's matches among the
   * blocks to apply and the rollback entries its matches among the blocks to
   * roll back; each comes from its own block list.
   */
  lemma ReorgTriggers(toApply: seq<BitcoinBlockData>, toRollback: seq<BitcoinBlockData>,
                      active: seq<BitcoinChainhookSpecification>, decode: Base58Decoder, t: BitcoinTriggerChainhook)
    requires t in Triggers(ChainUpdatedWithReorg(toApply, toRollback), active, decode)
    ensures t.apply == Filter(t.chainhook, Pairs(toApply), decode)
    ensures t.rollback == Filter(t.chainhook, Pairs(toRollback), decode)
    ensures forall e :: e in t.apply ==> e in Pairs(toApply) && Matches(t.chainhook, e.transaction, decode)
    ensures forall e :: e in t.rollback ==> e in Pairs(toRollback) && Matches(t.chainhook, e.transaction, decode)
  {
    TriggersMembership(ChainUpdatedWithReorg(toApply, toRollback), active, decode, t);
    forall e | e in t.apply
      ensures e in Pairs(toApply) && Matches(t.chainhook, e.transaction, decode)
    {
      FilterMembership(t.chainhook, Pairs(toApply), decode, e);
    }
    forall e | e in t.rollback
      ensures e in Pairs(toRollback) && Matches(t.chainhook, e.transaction, decode)
    {
      FilterMembership(t.chainhook, Pairs(toRollback), decode, e);
    }
  }

  /** No trigger is ever emitted with both sequences empty. */
  lemma NoEmptyTrigger(event: BitcoinChainEvent, active: seq<BitcoinChainhookSpecification>,
                       decode: Base58Decoder, t: BitcoinTriggerChainhook)
    requires t in Triggers(event, active, decode)
    ensures t.apply != [] || t.rollback != []
  {
    TriggersMembership(event, active, decode, t);
  }

  /** A chainhook none of whose scanned transactions match yields no trigger. */
  lemma NoMatchNoTrigger(event: BitcoinChainEvent, h: BitcoinChainhookSpecification, decode: Base58Decoder)
    requires forall b, t :: 0 <= b < |ScannedBlocks(event)| && 0 <= t < |ScannedBlocks(event)[b].transactions|
               ==> !Matches(h, ScannedBlocks(event)[b].transactions[t], decode)
    ensures TriggerFor(event, h, decode) == []
  {
    match event {
      case ChainUpdatedWithBlocks(blocks) =>
        assert ScannedBlocks(event) == blocks;
        NoMatchAmong(h, blocks, decode);
      case ChainUpdatedWithReorg(toApply, toRollback) =>
        forall b, t | 0 <= b < |toApply| && 0 <= t < |toApply[b].transactions|
          ensures !Matches(h, toApply[b].transactions[t], decode)
        {
          assert ScannedBlocks(event)[b] == toApply[b];
        }
        forall b, t | 0 <= b < |toRollback| && 0 <= t < |toRollback[b].transactions|
          ensures !Matches(h, toRollback[b].transactions[t], decode)
        {
          assert ScannedBlocks(event)[|toApply| + b] == toRollback[b];
        }
        NoMatchAmong(h, toApply, decode);
        NoMatchAmong(h, toRollback, decode);
    }
  }

  /** The blocks an event has the evaluator scan. */
  ghost function ScannedBlocks(event: BitcoinChainEvent): seq<BitcoinBlockData> {
    match event
    case ChainUpdatedWithBlocks(blocks) => blocks
    case ChainUpdatedWithReorg(toApply, toRollback) => toApply + toRollback
  }

  lemma NoMatchAmong(h: BitcoinChainhookSpecification, blocks: seq<BitcoinBlockData>, decode: Base58Decoder)
    requires forall b, t :: 0 <= b < |blocks| && 0 <= t < |blocks[b].transactions|
               ==> !Matches(h, blocks[b].transactions[t], decode)
    ensures Filter(h, Pairs(blocks), decode) == []
  {
    var es := Pairs(blocks);
    forall i | 0 <= i < |es|
      ensures !Matches(h, es[i].transaction, decode)
    {
      PairsMembership(blocks, es[i]);
    }
    FilterDropsAll(h, es, decode);
  }

  /** The chainhook fires: it yields a trigger for the event. */
  ghost predicate Fires(event: BitcoinChainEvent, h: BitcoinChainhookSpecification, decode: Base58Decoder) {
    TriggerFor(event, h, decode) != []
  }

  /** A chainhook yields at most one trigger, and that trigger is its own. */
  lemma TriggerForShape(event: BitcoinChainEvent, h: BitcoinChainhookSpecification, decode: Base58Decoder)
    ensures |TriggerFor(event, h, decode)| <= 1
    ensures Fires(event, h, decode) ==> TriggerFor(event, h, decode)[0].chainhook == h
  {
  }

  /** The triggers of each active chainhook, one list per chainhook. */
  ghost function PerChainhook(event: BitcoinChainEvent, active: seq<BitcoinChainhookSpecification>, decode: Base58Decoder)
    : (ts: seq<seq<BitcoinTriggerChainhook>>)
    ensures |ts| == |active|
  {
    seq(|active|, j requires 0 <= j < |active| => TriggerFor(event, active[j], decode))
  }

  lemma {:induction false} TriggersFlatten(event: BitcoinChainEvent, active: seq<BitcoinChainhookSpecification>,
                                           decode: Base58Decoder)
    ensures Triggers(event, active, decode) == Flatten(PerChainhook(event, active, decode))
  {
    if active != [] {
      TriggersFlatten(event, active[1..], decode);
      assert PerChainhook(event, active, decode)[1..] == PerChainhook(event, active[1..], decode);
    }
  }

  /** The positions of the active chainhooks that fire, in increasing order. */
  ghost function FiringPositions(event: BitcoinChainEvent, active: seq<BitcoinChainhookSpecification>,
                                 decode: Base58Decoder): seq<nat>
  {
    NonEmptyPositions(PerChainhook(event, active, decode), 0)
  }

  /**
   * Triggers follow the order of the active chainhooks: trigger `i` belongs
   * to the chainhook at position `FiringPositions(..)[i]`, those positions
   * strictly increase (so no chainhook yields two triggers), and every
   * chainhook that fires has its trigger.
   */
  lemma TriggersFollowSubscriptionOrder(event: BitcoinChainEvent, active: seq<BitcoinChainhookSpecification>,
                                        decode: Base58Decoder)
    ensures |Triggers(event, active, decode)| == |FiringPositions(event, active, decode)| <= |active|
    ensures forall i :: 0 <= i < |FiringPositions(event, active, decode)| ==>
              FiringPositions(event, active, decode)[i] < |active|
              && Triggers(event, active, decode)[i].chainhook == active[FiringPositions(event, active, decode)[i]]
    ensures forall i, i' :: 0 <= i < i' < |FiringPositions(event, active, decode)| ==>
              FiringPositions(event, active, decode)[i] < FiringPositions(event, active, decode)[i']
    ensures forall j :: 0 <= j < |active| && Fires(event, active[j], decode) ==> j in FiringPositions(event, active, decode)
  {
    var ts: seq<seq<BitcoinTriggerChainhook>> := PerChainhook(event, active, decode);
    forall j | 0 <= j < |ts|
      ensures |ts[j]| <= 1 && (ts[j] != [] ==> ts[j][0].chainhook == active[j])
    {
      TriggerForShape(event, active[j], decode);
    }
    TriggersFlatten(event, active, decode);
    FlattenSingletons(ts, 0);
    NonEmptyPositionsIncrease(ts, 0);
    NonEmptyPositionsComplete(ts, 0);
    assert ts[0..] == ts;
    NonEmptyPositionsBound(ts, 0);
  }

  // Flattening lists of at most one element each: which list each element came from.

  ghost function Flatten<T>(xss: seq<seq<T>>): seq<T> {
    if xss == [] then [] else xss[0] + Flatten(xss[1..])
  }

  /** The positions, from `k` on, of the non-empty lists. */
  ghost function NonEmptyPositions<T>(xss: seq<seq<T>>, k: nat): seq<nat>
    requires k <= |xss|
    decreases |xss| - k
  {
    if k == |xss| then [] else (if xss[k] != [] then [k] else []) + NonEmptyPositions(xss, k + 1)
  }

  lemma {:induction false} NonEmptyPositionsBound<T>(xss: seq<seq<T>>, k: nat)
    requires k <= |xss|
    ensures |NonEmptyPositions(xss, k)| <= |xss| - k
    decreases |xss| - k
  {
    if k < |xss| {
      NonEmptyPositionsBound(xss, k + 1);
    }
  }

  /** The positions lie in range and name non-empty lists. */
  lemma {:induction false} NonEmptyPositionsInRange<T>(xss: seq<seq<T>>, k: nat)
    requires k <= |xss|
    ensures forall i :: 0 <= i < |NonEmptyPositions(xss, k)| ==>
              k <= NonEmptyPositions(xss, k)[i] < |xss| && xss[NonEmptyPositions(xss, k)[i]] != []
    decreases |xss| - k
  {
    if k < |xss| {
      NonEmptyPositionsInRange(xss, k + 1);
      var p, q := NonEmptyPositions(xss, k), NonEmptyPositions(xss, k + 1);
      if xss[k] == [] {
        assert p == q;
      } else {
        assert p == [k] + q;
      }
    }
  }

  /** The positions strictly increase. */
  lemma {:induction false} NonEmptyPositionsIncrease<T>(xss: seq<seq<T>>, k: nat)
    requires k <= |xss|
    ensures forall i, i' :: 0 <= i < i' < |NonEmptyPositions(xss, k)| ==>
              NonEmptyPositions(xss, k)[i] < NonEmptyPositions(xss, k)[i']
    decreases |xss| - k
  {
    if k < |xss| {
      NonEmptyPositionsIncrease(xss, k + 1);
      NonEmptyPositionsInRange(xss, k + 1);
      var p, q := NonEmptyPositions(xss, k), NonEmptyPositions(xss, k + 1);
      if xss[k] == [] {
        assert p == q;
      } else {
        assert p == [k] + q;
        forall i, i' | 0 <= i < i' < |p| ensures p[i] < p[i'] {
          assert p[i'] == q[i' - 1];
          if 0 < i {
            assert p[i] == q[i - 1];
          }
        }
      }
    }
  }

  /** Every non-empty list from `k` on has its position. */
  lemma {:induction false} NonEmptyPositionsComplete<T>(xss: seq<seq<T>>, k: nat)
    requires k <= |xss|
    ensures forall j :: k <= j < |xss| && xss[j] != [] ==> j in NonEmptyPositions(xss, k)
    decreases |xss| - k
  {
    if k < |xss| {
      NonEmptyPositionsComplete(xss, k + 1);
      var p, q := NonEmptyPositions(xss, k), NonEmptyPositions(xss, k + 1);
      if xss[k] == [] {
        assert p == q;
      } else {
        assert p == [k] + q;
      }
    }
  }

  /** When every list holds at most one element, element `i` of the flattening is the list at position `i`. */
  lemma {:induction false} FlattenSingletons<T>(xss: seq<seq<T>>, k: nat)
    requires k <= |xss|
    requires forall j :: 0 <= j < |xss| ==> |xss[j]| <= 1
    ensures |Flatten(xss[k..])| == |NonEmptyPositions(xss, k)|
    ensures forall i :: 0 <= i < |NonEmptyPositions(xss, k)| ==>
              NonEmptyPositions(xss, k)[i] < |xss| && xss[NonEmptyPositions(xss, k)[i]] == [Flatten(xss[k..])[i]]
    decreases |xss| - k
  {
    if k < |xss| {
      FlattenSingletons(xss, k + 1);
      var p, q := NonEmptyPositions(xss, k), NonEmptyPositions(xss, k + 1);
      var f, g := Flatten(xss[k..]), Flatten(xss[k + 1..]);
      assert xss[k..][0] == xss[k];
      assert xss[k..][1..] == xss[k + 1..];
      assert f == xss[k] + g;
      if xss[k] == [] {
        assert p == q;
        assert f == g;
      } else {
        assert p == [k] + q;
        forall i | 0 <= i < |p| ensures p[i] < |xss| && xss[p[i]] == [f[i]] {
          if 0 < i {
            assert p[i] == q[i - 1];
            assert f[i] == g[i - 1];
          }
        }
      }
    }
  }

  /** When no active chainhook matches any scanned transaction, the pass yields no trigger at all. */
  lemma {:induction false} NoMatchNoTriggers(event: BitcoinChainEvent, active: seq<BitcoinChainhookSpecification>,
                                             decode: Base58Decoder)
    requires forall j, b, t :: 0 <= j < |active| && 0 <= b < |ScannedBlocks(event)|
               && 0 <= t < |ScannedBlocks(event)[b].transactions|
               ==> !Matches(active[j], ScannedBlocks(event)[b].transactions[t], decode)
    ensures Triggers(event, active, decode) == []
  {
    if active != [] {
      NoMatchNoTrigger(event, active[0], decode);
      forall j, b, t | 0 <= j < |active[1..]| && 0 <= b < |ScannedBlocks(event)|
          && 0 <= t < |ScannedBlocks(event)[b].transactions|
        ensures !Matches(active[1..][j], ScannedBlocks(event)[b].transactions[t], decode)
      {
        assert active[1..][j] == active[j + 1];
      }
      NoMatchNoTriggers(event, active[1..], decode);
    }
  }

  /**
   * One block holding a transaction with script `00` and then one with script
   * `01`; a chainhook on op-return equal to `01` gets a single trigger whose
   * apply is the second transaction and whose rollback is empty.
   */
  lemma OpReturnForwardExample(h: BitcoinChainhookSpecification, id: BlockIdentifier,
                               t1: BitcoinTransactionData, t2: BitcoinTransactionData, decode: Base58Decoder)
    requires h.filter.kind == OpReturn(Equals("01"))
    requires t1.metadata.outputs == [TxOut(0, "00")] && t2.metadata.outputs == [TxOut(0, "01")]
    ensures Triggers(ChainUpdatedWithBlocks([BitcoinBlockData(id, [t1, t2])]), [h], decode)
            == [BitcoinTriggerChainhook(h, [Entry(t2, id)], [])]
  {
    var block := BitcoinBlockData(id, [t1, t2]);
    assert Pairs([block]) == [Entry(t1, id), Entry(t2, id)] by {
      assert [block][1..] == [];
    }
    assert !Matches(h, t1, decode) by {
      assert t1.metadata.outputs[0].script_pubkey[1] == '0';
    }
    assert Matches(h, t2, decode) by {
      assert RuleHolds(Equals("01"), t2.metadata.outputs[0].script_pubkey);
    }
    assert [Entry(t1, id), Entry(t2, id)][1..] == [Entry(t2, id)];
    assert [Entry(t2, id)][1..] == [];
    assert Filter(h, [Entry(t2, id)], decode) == [Entry(t2, id)];
    assert Filter(h, Pairs([block]), decode) == [Entry(t2, id)];
    assert [h][1..] == [];
  }
}
