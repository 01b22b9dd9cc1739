# Bitcoin chainhook engine and notebook configuration, modelled in Dafny

This project models the Bitcoin side of a chainhook engine. A *chainhook* is a
subscription: a predicate over Bitcoin transactions plus an action. A *chain
event* either adds new blocks or reorganises the chain, rolling some blocks
back and applying others.

For each active chainhook, the engine walks the event's blocks in order and
each block's transactions in order. It collects the (transaction, block
identifier) pairs the predicate matches, into `apply` and, during a reorg, into
`rollback`. It emits a *trigger* only when something matched. A trigger is
then turned into an *occurrence*: an HTTP request descriptor, a file body, or
an owned in-process payload. Every entry carries the fixed confirmation count
1, and apply entries also carry the inclusion proof found for the transaction,
if there is one.

The project also models how the project configuration is assembled from an
already-parsed TOML file: the project record is copied, notebook entries become
notebook configurations, and the contract map stays empty.

Modules:

- `Wrappers`: Option and Result.
- `BitcoinTypes`: chain events, blocks, transactions, outputs, Stacks side-operations, predicates, actions and chainhook specifications.
- `Script`: lowercase hex text, and the P2PKH and P2SH (BIP 16) script templates.
- `Predicates`: the predicate evaluator. `Matches` is the reference meaning, one existential per kind. `EvaluateTransactionPredicate` and its scanning loops are proved against it.
- `ChainEvaluation`: the chain-event evaluator. `Triggers` is the reference result: a filter of the flattened (transaction, block identifier) pairs. `EvaluateBitcoinChainhooksOnChainEvent` is the nested loop proved against it.
- `Utf8`: UTF-8 bytes of a string, used for the proof bytes of in-process entries.
- `Payload`: the payload builder and the action dispatcher.
- `Config`: `FromConfigFile` over a TOML `Value` datatype.

Base58 decoding of addresses is not modelled. It is a parameter of type
`string -> Option<seq<Byte>>`. A decoding failure, or a result shorter than 21
bytes, makes the source panic (`expect`, or the slice `[1..21]`). The model
reports this as `Failure(InvalidAddressEncoding)`. The panic ends the whole
pass, so a failure is not isolated to its chainhook. The model does the same: a
`Failure` from one chainhook aborts `EvaluateBitcoinChainhooksOnChainEvent`. This
happens only when some scanned block holds a transaction, because the address
is decoded only when a transaction is evaluated.

## Model

| member | source | states |
|---|---|---|
| `Script.P2pkhScript` | components/chainhook-event-observer/src/chainhooks/bitcoin/mod.rs:256-262 | the P2PKH script is 25 bytes: OP_DUP, OP_HASH160, a 20-byte push, the hash in bytes 3 to 22, then OP_EQUALVERIFY and OP_CHECKSIG |
| `Script.P2shScript` | components/chainhook-event-observer/src/chainhooks/bitcoin/mod.rs:275-279 | the P2SH script is 23 bytes: OP_HASH160, a 20-byte push, the hash in bytes 2 to 21, then OP_EQUAL |
| `Script.Hex` | components/chainhook-event-observer/src/chainhooks/bitcoin/mod.rs:265 | the hex text has two characters per byte |
| `Script.HexInjective` | components/chainhook-event-observer/src/chainhooks/bitcoin/mod.rs:264-268 | equal hex text means equal bytes, so comparing script text compares scripts |
| `Script.P2pkhHexLayout` | components/chainhook-event-observer/src/chainhooks/bitcoin/mod.rs:256-262 | the P2PKH script text is `76a914`, then the 40 hex digits of the hash, then `88ac` |
| `Script.P2shHexLayout` | components/chainhook-event-observer/src/chainhooks/bitcoin/mod.rs:275-279 | the P2SH script text is `a914`, then the 40 hex digits of the hash, then `87` |
| `Script.P2pkhHexDeterminesHash` | components/chainhook-event-observer/src/chainhooks/bitcoin/mod.rs:256-268 | two hashes with the same P2PKH script text are equal |
| `Script.P2shHexDeterminesHash` | components/chainhook-event-observer/src/chainhooks/bitcoin/mod.rs:275-285 | two hashes with the same P2SH script text are equal |
| `Script.P2pkhAndP2shDiffer` | components/chainhook-event-observer/src/chainhooks/bitcoin/mod.rs:256-279 | no P2PKH script text equals a P2SH script text |
| `Predicates.RuleHolds` | components/chainhook-event-observer/src/chainhooks/bitcoin/mod.rs:230-246 | equals, starts-with and ends-with, each stated character by character: equal length and equal characters, the rule text at the start, or the rule text at the end |
| `Predicates.IsOperationOfKind` | components/chainhook-event-observer/src/chainhooks/bitcoin/mod.rs:292-362 | an operation passes a variant test exactly when that variant is its kind, so each operation passes exactly one test |
| `Predicates.P2pkhHex` | components/chainhook-event-observer/src/chainhooks/bitcoin/mod.rs:253-265 | the compared text is `76a914`, then the hex of bytes 1 to 20 of the decoded address, then `88ac` |
| `Predicates.P2shHex` | components/chainhook-event-observer/src/chainhooks/bitcoin/mod.rs:272-282 | the compared text is `a914`, then the hex of bytes 1 to 20 of the decoded address, then `87` |
| `Predicates.AnyOutputMatches` | components/chainhook-event-observer/src/chainhooks/bitcoin/mod.rs:228-251 | the output scan returns true iff some output's script text satisfies the equals, starts-with or ends-with rule |
| `Predicates.AnyOperationOfKind` | components/chainhook-event-observer/src/chainhooks/bitcoin/mod.rs:290-305 | the side-operation scan returns true iff some Stacks operation has the requested variant |
| `Predicates.AnyRewardRecipient` | components/chainhook-event-observer/src/chainhooks/bitcoin/mod.rs:306-343 | the reward scan returns true iff some reward of some PoX commitment has a recipient that satisfies the rule |
| `Predicates.EvaluateTransactionPredicate` | components/chainhook-event-observer/src/chainhooks/bitcoin/mod.rs:222-369 | fails iff a P2PKH or P2SH address does not decode to at least 21 bytes; otherwise returns the reference meaning of every kind; P2WPKH and P2WSH always give false |
| `Predicates.P2pkhOutputDeterminesHash` | components/chainhook-event-observer/src/chainhooks/bitcoin/mod.rs:252-270 | if one output matches two P2PKH addresses, their decoded bytes 1 to 20 are equal |
| `Predicates.P2shOutputDeterminesHash` | components/chainhook-event-observer/src/chainhooks/bitcoin/mod.rs:271-287 | if one output matches two P2SH addresses, their decoded bytes 1 to 20 are equal |
| `Predicates.P2pkhAndP2shExclusive` | components/chainhook-event-observer/src/chainhooks/bitcoin/mod.rs:252-287 | a single-output transaction never matches both a P2PKH and a P2SH predicate |
| `Predicates.OpReturnPrefixExample` | components/chainhook-event-observer/src/chainhooks/bitcoin/mod.rs:236-243 | the starts-with rule `aa` accepts script `aabb` and rejects `bbaa` |
| `ChainEvaluation.CollectBlockMatches` | components/chainhook-event-observer/src/chainhooks/bitcoin/mod.rs:84-88 | the scan of one block fails exactly when the block has a transaction and the address does not decode; otherwise it yields the matching transactions of the block, in order, each paired with the block identifier |
| `ChainEvaluation.CollectMatches` | components/chainhook-event-observer/src/chainhooks/bitcoin/mod.rs:83-89 | scanning blocks then transactions yields exactly the matching pairs in order; fails iff a transaction is scanned and the address does not decode |
| `ChainEvaluation.EvaluateChainhook` | components/chainhook-event-observer/src/chainhooks/bitcoin/mod.rs:101-125 | one chainhook's pass gives its reference trigger (none, or one), or the decoding failure |
| `ChainEvaluation.EvaluateBitcoinChainhooksOnChainEvent` | components/chainhook-event-observer/src/chainhooks/bitcoin/mod.rs:72-130 | returns the reference triggers; fails iff some transaction is scanned and some active chainhook's address does not decode |
| `ChainEvaluation.FilterAppend` | components/chainhook-event-observer/src/chainhooks/bitcoin/mod.rs:83-89 | matches of earlier blocks come before matches of later ones: the filter distributes over concatenation |
| `ChainEvaluation.FilterMultiplicity` | components/chainhook-event-observer/src/chainhooks/bitcoin/mod.rs:84-88 | each matching pair occurs in `apply` exactly as often as in the scanned blocks, and a non-matching pair never does: no loss, no invention, no deduplication |
| `ChainEvaluation.FilterMembership` | components/chainhook-event-observer/src/chainhooks/bitcoin/mod.rs:105-111 | a pair is collected iff it occurs in the scanned blocks and its transaction matches (soundness and completeness) |
| `ChainEvaluation.FilterKeepsAll` | components/chainhook-event-observer/src/chainhooks/bitcoin/mod.rs:84-88 | when every transaction matches, the collected pairs are all the pairs, unchanged |
| `ChainEvaluation.FilterDropsAll` | components/chainhook-event-observer/src/chainhooks/bitcoin/mod.rs:84-88 | when no transaction matches, nothing is collected |
| `ChainEvaluation.PairsMembership` | components/chainhook-event-observer/src/chainhooks/bitcoin/mod.rs:83-86 | a scanned pair is a transaction of some block, paired with that block's identifier |
| `ChainEvaluation.TriggersMembership` | components/chainhook-event-observer/src/chainhooks/bitcoin/mod.rs:76-129 | every trigger is the trigger of one of the active chainhooks |
| `ChainEvaluation.ForwardProgressTriggers` | components/chainhook-event-observer/src/chainhooks/bitcoin/mod.rs:78-98 | for blocks added without a reorg, every trigger has an empty rollback and a non-empty apply that is exactly its chainhook's matches |
| `ChainEvaluation.ReorgTriggers` | components/chainhook-event-observer/src/chainhooks/bitcoin/mod.rs:100-125 | in a reorg, apply entries come only from the blocks to apply and rollback entries only from the blocks to roll back, each being its chainhook's matches there |
| `ChainEvaluation.NoEmptyTrigger` | components/chainhook-event-observer/src/chainhooks/bitcoin/mod.rs:91-97 | no trigger has both apply and rollback empty |
| `ChainEvaluation.NoMatchNoTrigger` | components/chainhook-event-observer/src/chainhooks/bitcoin/mod.rs:119-125 | a chainhook that matches no scanned transaction yields no trigger |
| `ChainEvaluation.NoMatchNoTriggers` | components/chainhook-event-observer/src/chainhooks/bitcoin/mod.rs:100-127 | a reorg (or block event) in which nothing matches any chainhook yields no trigger |
| `ChainEvaluation.TriggersFollowSubscriptionOrder` | components/chainhook-event-observer/src/chainhooks/bitcoin/mod.rs:79-97 | trigger i belongs to the active chainhook at a strictly increasing position; every chainhook that fires has its trigger; there are at most as many triggers as chainhooks |
| `ChainEvaluation.OpReturnForwardExample` | components/chainhook-event-observer/src/chainhooks/bitcoin/mod.rs:78-98 | a block holding scripts `00` then `01`, with op-return equals `01`, gives one trigger whose apply is the second transaction and whose rollback is empty |
| `Utf8.Encode` | components/chainhook-event-observer/src/chainhooks/bitcoin/mod.rs:198 | a string's bytes number between one and four per character |
| `Utf8.EncodeAscii` | components/chainhook-event-observer/src/chainhooks/bitcoin/mod.rs:198 | ASCII text (such as hex proofs) encodes byte for character |
| `Payload.ProofOf` | components/chainhook-event-observer/src/chainhooks/bitcoin/mod.rs:142 | the proof lookup is present iff the transaction identifier has a proof, and then it is that proof |
| `Payload.ApplyJsonRecords` | components/chainhook-event-observer/src/chainhooks/bitcoin/mod.rs:137-144 | one record per apply entry; each has confirmations 1 and the proof looked up for its transaction |
| `Payload.RollbackJsonRecords` | components/chainhook-event-observer/src/chainhooks/bitcoin/mod.rs:145-151 | one record per rollback entry, each with confirmations 1 and no proof |
| `Payload.SerializeBitcoinPayloadToJson` | components/chainhook-event-observer/src/chainhooks/bitcoin/mod.rs:132-157 | as many apply and rollback records as the trigger has entries; the chainhook summary is its uuid and predicate |
| `Payload.JsonPayloadRoundTrip` | components/chainhook-event-observer/src/chainhooks/bitcoin/mod.rs:137-151 | reading the entries back out of the structured payload gives the trigger's apply and rollback exactly |
| `Payload.ProofBytes` | components/chainhook-event-observer/src/chainhooks/bitcoin/mod.rs:196-198 | an in-process apply entry has proof bytes iff a proof exists, and they are the proof's UTF-8 bytes |
| `Payload.ApplyPayloads` | components/chainhook-event-observer/src/chainhooks/bitcoin/mod.rs:188-201 | one owned apply payload per entry, with confirmations 1 and the proof bytes |
| `Payload.RollbackPayloads` | components/chainhook-event-observer/src/chainhooks/bitcoin/mod.rs:202-212 | one owned rollback payload per entry, with confirmations 1 |
| `Payload.HandleBitcoinHookAction` | components/chainhook-event-observer/src/chainhooks/bitcoin/mod.rs:159-219 | always returns Some. HTTP: the configured method and url, a JSON content type, the verbatim authorization header and the payload. File: the configured path, unchanged, and the payload. Noop: an owned payload with entry counts preserved and the uuid copied |
| `Payload.DataOccurrenceRoundTrip` | components/chainhook-event-observer/src/chainhooks/bitcoin/mod.rs:186-217 | the in-process payload holds exactly the trigger's apply and rollback entries, in order |
| `Config.Get` | src/types/config.rs:92 | a lookup misses iff no entry has the key, and a hit is the value of an entry with that key |
| `Config.FromConfigFile` | src/types/config.rs:57-109 | the project is copied, the contract map is empty whatever the input, and the notebooks are the reference notebook list of the `notebooks` value |
| `Config.NotebooksAppend` | src/types/config.rs:89-103 | notebooks are added in table iteration order |
| `Config.NotebooksBound` | src/types/config.rs:88-104 | at most one notebook comes from each table entry |
| `Config.NotebooksMembership` | src/types/config.rs:88-100 | a notebook is produced iff some entry with that name is a table whose `path` is that string |
| `Config.NotebooksSkipNonNotebooks` | src/types/config.rs:90-101 | entries that are not tables, lack `path`, or whose `path` is not a string yield nothing |

## Left out

- `PaperConfig::from_path` (file reading and TOML parsing) is I/O plus a parsing library. The model starts from the parsed `PaperConfigFile`.
- The contracts loop of `from_config_file` only computes a path that it then drops: the insertion is commented out. It has no effect, so the model does not reproduce the loop and states only that `contracts` is empty.
- Base58 decoding (`from_base58`) is a caller-supplied parameter. The decoded checksum bytes after byte 20 are ignored, as in the source.
- The bitcoin script builder is replaced by the explicit script bytes it produces for a 20-byte push.
- Payload.HandleBitcoinHookAction: the HTTP branch builds a descriptor carrying the raw method string. The reqwest client, its `build().unwrap()` and the panic of `Method::from_bytes(..).unwrap()` on an invalid method are not modelled.
- Payload.SerializeBitcoinPayloadToJson: the JSON document is kept as a structured value. The `serde_json::to_vec` bytes and the `json!` encoding of transactions are not modelled, so HTTP and file occurrences carry that value rather than bytes.
- Rust lifetimes and borrowing are not modelled: trigger entries hold copies of the transaction and the block identifier.
- Chainhook-specification fields that the core never reads (name, network, version, block bounds) are not modelled. Neither are transaction fields it never reads (inputs, Rosetta operations, proof, output values beyond a placeholder).
- Unused Stacks imports are not modelled. There is no Stacks evaluation in this core.
- TOML floats are modelled as `real`; their value never matters here. A TOML table is its entry sequence in iteration order (sorted keys for the default map), and lookup takes the first entry with the key.
- String rules compare `seq<char>`, where the source compares UTF-8 bytes. For valid strings, starts-with and ends-with agree on the two.
