/**
 * The payload builder and the action dispatcher: a trigger and the proofs
 * fetched for the pass become the structured payload that the HTTP and file
 * actions send, or the owned payload that the in-process action hands over.
 */
module Payload {
  import opened Wrappers
  import opened BitcoinTypes
  import opened ChainEvaluation
  import Utf8

  /** The confirmation count every entry carries: a fixed placeholder, not a chain depth. */
  const CONFIRMATIONS: Byte := 1

  /** Inclusion proofs by transaction identifier, fetched before the pass and only read here. */
  type ProofMap = map<TransactionIdentifier, string>

  function ProofOf(proofs: ProofMap, id: TransactionIdentifier): (p: Option<string>)
    ensures p.Some? <==> id in proofs
    ensures p.Some? ==> p.value == proofs[id]
  {
    if id in proofs then Some(proofs[id]) else None
  }

  // The structured payload of the HTTP and file actions (the JSON document before it is written out).

  datatype ApplyJson = ApplyJson(transaction: BitcoinTransactionData, block_identifier: BlockIdentifier,
                                 confirmations: int, proof: Option<string>)

  datatype RollbackJson = RollbackJson(transaction: BitcoinTransactionData, block_identifier: BlockIdentifier,
                                       confirmations: int)

  /** The chainhook summary: its uuid and its predicate, echoed. */
  datatype ChainhookJson = ChainhookJson(uuid: string, filter: BitcoinTransactionFilterPredicate)

  datatype JsonPayload = JsonPayload(apply: seq<ApplyJson>, rollback: seq<RollbackJson>, chainhook: ChainhookJson)

  // The owned payload of the in-process action.

  datatype BitcoinApplyTransactionPayload =
    BitcoinApplyTransactionPayload(transaction: BitcoinTransactionData, block_identifier: BlockIdentifier,
                                   confirmations: Byte, proof: Option<seq<Byte>>)

  datatype BitcoinRollbackTransactionPayload =
    BitcoinRollbackTransactionPayload(transaction: BitcoinTransactionData, block_identifier: BlockIdentifier,
                                      confirmations: Byte)

  datatype BitcoinChainhookPayload = BitcoinChainhookPayload(uuid: string)

  datatype BitcoinChainhookOccurrencePayload =
    BitcoinChainhookOccurrencePayload(apply: seq<BitcoinApplyTransactionPayload>,
                                      rollback: seq<BitcoinRollbackTransactionPayload>,
                                      chainhook: BitcoinChainhookPayload)

  /** The request an HTTP action would send; the body is the structured payload. */
  datatype HttpRequest = HttpRequest(http_method: string, url: string, headers: seq<(string, string)>, body: JsonPayload)

  /** What the caller is to do: send a request, write a file, or take the payload in process. */
  datatype BitcoinChainhookOccurrence =
    | HttpOccurrence(request: HttpRequest)
    | FileOccurrence(path: string, body: JsonPayload)
    | DataOccurrence(payload: BitcoinChainhookOccurrencePayload)

  function ApplyJsonRecords(entries: seq<Entry>, proofs: ProofMap): (rs: seq<ApplyJson>)
    ensures |rs| == |entries|
    ensures forall i :: 0 <= i < |rs| ==>
              rs[i].confirmations == CONFIRMATIONS
              && rs[i].proof == ProofOf(proofs, entries[i].transaction.transaction_identifier)
  {
    if entries == [] then []
    else [ApplyJson(entries[0].transaction, entries[0].block_identifier, CONFIRMATIONS,
                    ProofOf(proofs, entries[0].transaction.transaction_identifier))]
         + ApplyJsonRecords(entries[1..], proofs)
  }

  function RollbackJsonRecords(entries: seq<Entry>): (rs: seq<RollbackJson>)
    ensures |rs| == |entries|
    ensures forall i :: 0 <= i < |rs| ==> rs[i].confirmations == CONFIRMATIONS
  {
    if entries == [] then []
    else [RollbackJson(entries[0].transaction, entries[0].block_identifier, CONFIRMATIONS)]
         + RollbackJsonRecords(entries[1..])
  }

  /** The structured payload of a trigger: entries in trigger order, then the chainhook summary. */
  function SerializeBitcoinPayloadToJson(trigger: BitcoinTriggerChainhook, proofs: ProofMap): (p: JsonPayload)
    ensures |p.apply| == |trigger.apply| && |p.rollback| == |trigger.rollback|
    ensures p.chainhook == ChainhookJson(trigger.chainhook.uuid, trigger.chainhook.filter)
  {
    JsonPayload(ApplyJsonRecords(trigger.apply, proofs), RollbackJsonRecords(trigger.rollback),
                ChainhookJson(trigger.chainhook.uuid, trigger.chainhook.filter))
  }

  /** The proof bytes an in-process apply entry carries: the proof text as UTF-8, when there is one. */
  function ProofBytes(proofs: ProofMap, id: TransactionIdentifier): (b: Option<seq<Byte>>)
    ensures b.Some? <==> id in proofs
    ensures b.Some? ==> b.value == Utf8.Encode(proofs[id])
  {
    match ProofOf(proofs, id)
    case Some(text) => Some(Utf8.Encode(text))
    case None => None
  }

  function ApplyPayloads(entries: seq<Entry>, proofs: ProofMap): (ps: seq<BitcoinApplyTransactionPayload>)
    ensures |ps| == |entries|
    ensures forall i :: 0 <= i < |ps| ==>
              ps[i].confirmations == CONFIRMATIONS
              && ps[i].proof == ProofBytes(proofs, entries[i].transaction.transaction_identifier)
  {
    if entries == [] then []
    else [BitcoinApplyTransactionPayload(entries[0].transaction, entries[0].block_identifier, CONFIRMATIONS,
                                         ProofBytes(proofs, entries[0].transaction.transaction_identifier))]
         + ApplyPayloads(entries[1..], proofs)
  }

  function RollbackPayloads(entries: seq<Entry>): (ps: seq<BitcoinRollbackTransactionPayload>)
    ensures |ps| == |entries|
    ensures forall i :: 0 <= i < |ps| ==> ps[i].confirmations == CONFIRMATIONS
  {
    if entries == [] then []
    else [BitcoinRollbackTransactionPayload(entries[0].transaction, entries[0].block_identifier, CONFIRMATIONS)]
         + RollbackPayloads(entries[1..])
  }

  /**
   * The dispatcher. It always produces an occurrence: a request for an HTTP
   * action, a file body for a file action, the owned payload otherwise.
   */
  function HandleBitcoinHookAction(trigger: BitcoinTriggerChainhook, proofs: ProofMap)
    : (r: Option<BitcoinChainhookOccurrence>)
    ensures r.Some?
    ensures trigger.chainhook.action.Http? ==>
              var http := trigger.chainhook.action.http;
              r.value == HttpOccurrence(HttpRequest(http.http_method, http.url,
                                                    [("Content-Type", "application/json"),
                                                     ("Authorization", http.authorization_header)],
                                                    SerializeBitcoinPayloadToJson(trigger, proofs)))
    ensures trigger.chainhook.action.File? ==>
              r.value == FileOccurrence(trigger.chainhook.action.disk.path, SerializeBitcoinPayloadToJson(trigger, proofs))
    ensures trigger.chainhook.action.Noop? ==>
              && r.value.DataOccurrence?
              && |r.value.payload.apply| == |trigger.apply|
              && |r.value.payload.rollback| == |trigger.rollback|
              && r.value.payload.chainhook.uuid == trigger.chainhook.uuid
  {
    match trigger.chainhook.action
    case Http(http) =>
      var body := SerializeBitcoinPayloadToJson(trigger, proofs);
      Some(HttpOccurrence(HttpRequest(http.http_method, http.url,
                                      [("Content-Type", "application/json"), ("Authorization", http.authorization_header)],
                                      body)))
    case File(disk) =>
      Some(FileOccurrence(disk.path, SerializeBitcoinPayloadToJson(trigger, proofs)))
    case Noop =>
      Some(DataOccurrence(BitcoinChainhookOccurrencePayload(ApplyPayloads(trigger.apply, proofs),
                                                            RollbackPayloads(trigger.rollback),
                                                            BitcoinChainhookPayload(trigger.chainhook.uuid))))
  }

  // Reading the entries back out of a payload gives the trigger's entries.

  function ApplyJsonEntries(rs: seq<ApplyJson>): seq<Entry> {
    if rs == [] then [] else [Entry(rs[0].transaction, rs[0].block_identifier)] + ApplyJsonEntries(rs[1..])
  }

  function RollbackJsonEntries(rs: seq<RollbackJson>): seq<Entry> {
    if rs == [] then [] else [Entry(rs[0].transaction, rs[0].block_identifier)] + RollbackJsonEntries(rs[1..])
  }

  function ApplyPayloadEntries(ps: seq<BitcoinApplyTransactionPayload>): seq<Entry> {
    if ps == [] then [] else [Entry(ps[0].transaction, ps[0].block_identifier)] + ApplyPayloadEntries(ps[1..])
  }

  function RollbackPayloadEntries(ps: seq<BitcoinRollbackTransactionPayload>): seq<Entry> {
    if ps == [] then [] else [Entry(ps[0].transaction, ps[0].block_identifier)] + RollbackPayloadEntries(ps[1..])
  }

  lemma {:induction false} ApplyJsonRoundTrip(entries: seq<Entry>, proofs: ProofMap)
    ensures ApplyJsonEntries(ApplyJsonRecords(entries, proofs)) == entries
  {
    if entries != [] {
      ApplyJsonRoundTrip(entries[1..], proofs);
    }
  }

  lemma {:induction false} RollbackJsonRoundTrip(entries: seq<Entry>)
    ensures RollbackJsonEntries(RollbackJsonRecords(entries)) == entries
  {
    if entries != [] {
      RollbackJsonRoundTrip(entries[1..]);
    }
  }

  lemma {:induction false} ApplyPayloadRoundTrip(entries: seq<Entry>, proofs: ProofMap)
    ensures ApplyPayloadEntries(ApplyPayloads(entries, proofs)) == entries
  {
    if entries != [] {
      ApplyPayloadRoundTrip(entries[1..], proofs);
    }
  }

  lemma {:induction false} RollbackPayloadRoundTrip(entries: seq<Entry>)
    ensures RollbackPayloadEntries(RollbackPayloads(entries)) == entries
  {
    if entries != [] {
      RollbackPayloadRoundTrip(entries[1..]);
    }
  }

  /** The structured payload holds exactly the trigger's entries, in the trigger's order. */
  lemma JsonPayloadRoundTrip(trigger: BitcoinTriggerChainhook, proofs: ProofMap)
    ensures ApplyJsonEntries(SerializeBitcoinPayloadToJson(trigger, proofs).apply) == trigger.apply
    ensures RollbackJsonEntries(SerializeBitcoinPayloadToJson(trigger, proofs).rollback) == trigger.rollback
  {
    ApplyJsonRoundTrip(trigger.apply, proofs);
    RollbackJsonRoundTrip(trigger.rollback);
  }

  /** The in-process occurrence holds exactly the trigger's entries, in the trigger's order. */
  lemma DataOccurrenceRoundTrip(trigger: BitcoinTriggerChainhook, proofs: ProofMap)
    requires trigger.chainhook.action.Noop?
    ensures ApplyPayloadEntries(HandleBitcoinHookAction(trigger, proofs).value.payload.apply) == trigger.apply
    ensures RollbackPayloadEntries(HandleBitcoinHookAction(trigger, proofs).value.payload.rollback) == trigger.rollback
  {
    ApplyPayloadRoundTrip(trigger.apply, proofs);
    RollbackPayloadRoundTrip(trigger.rollback);
  }
}
