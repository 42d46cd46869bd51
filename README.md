# Magic Arbuz orbital instance, modelled in Dafny

The repository's contract `ArbuzOrbitalInstance` (src/lib.rs) is one single-edition
token of a larger collection. It keeps two persistent storage slots:
`/collection-alkane-id` holds the id of the caller of the first successful
`initialize` (32 bytes: 16 little-endian bytes of `block`, then 16 of `tx`). That
caller is meant to be the collection that created the instance, but the contract
does not check it. `/index` holds the instance's position in the collection (16
little-endian bytes). A one-time guard lets `initialize` (opcode 0) run once. That
call records its caller, whoever it is, as the collection, stores the given index,
and mints one unit of the contract's own token. The other
opcodes only read:

- name and symbol: "Magic Arbuz #<index>" and "magic-arbuz-<index>";
- total supply: the constant 1;
- collection identifier: the collection id as decimal "block:tx";
- collection alkane id: the raw 32 bytes;
- content type: the fixed label "text/javascript";
- data (1000) and attributes (1002): fetched from the collection with a read-only
  call whose inputs are `[1000, index]` or `[999, index]`.

Every answer passes the incoming transfers on.

Files and modules:

- `bytes.dfy` (`Bytes`): bytes, `u128`, and the little-endian codec behind
  `to_le_bytes` and `from_le_bytes`. It proves the codec round-trips in both
  directions.
- `text.dfy` (`Text`): decimal formatting of unsigned integers. It is checked
  against a reference reading of digit strings (`DigitsValue`), in both
  directions. The module also holds the "a:b" split and the UTF-8 encoding that
  `into_bytes` performs.
- `runtime.dfy` (`Runtime`): the host's types: ids, transfers, call descriptors,
  responses, the caller context and the failure kinds. A read-only remote call
  (`staticcall`) is a function parameter of type `StaticCall`.
- `instance.dfy` (`ArbuzInstance`): the storage codec, the identity text, the
  message/opcode table, and the class `ArbuzOrbitalInstance`. The class has the
  storage map and the `initialized` guard as fields, and one method per handler.
  Its `Valid()` invariant says that both slots are empty before initialization,
  and that both are written together, at full width, by the initializing call.
  The file ends with three client methods: `InitializeTwice`,
  `ReadBeforeInitialize` and `InitializeThenQuery`. They show what a caller can
  conclude from the handlers' contracts alone.

How the runtime is represented:

- The host context (`context()`) is a parameter. It gives the contract's own id,
  the caller and the incoming transfers.
- `fuel()` is a `nat` parameter.
- The remote contract is the `staticcall` function parameter.
- `observe_initialization` is the `initialized` flag. It only goes from false to
  true.
- A Rust panic and an `Err` are both a `Result.Err`. A failing handler changes
  no storage.

Before initialization, the name and symbol handlers do not fail. Reading the
empty index slot gives 0, given how `get_value` is assumed to read an empty slot
(see "## Left out"). So they answer "Magic Arbuz #0" and "magic-arbuz-0"
(`ReadBeforeInitialize`). The handlers that read the collection reference do
fail.

## Model

| member | source | states |
|---|---|---|
| `Runtime.Forward` | src/lib.rs:79 | `CallResponse::forward` passes on exactly the incoming transfers, in order, with empty data (what is assumed of the library function, see "## Left out") |
| `Bytes.ToLe16` | src/lib.rs:174-175 | `to_le_bytes` of a `u128` is exactly 16 bytes, and they read back, least significant first, to the same value |
| `Bytes.FromLe16` | src/lib.rs:216-217 | `from_le_bytes` of 16 bytes is the `u128` whose encoding is exactly those bytes |
| `Bytes.FromLe` | src/lib.rs:216-217 | the little-endian value of n bytes is below 256^n, so 16 bytes always fit in a `u128` |
| `Bytes.FromLeOfLeBytes` | src/lib.rs:174-175 | decoding the n-byte little-endian encoding of any value below 256^n gives the value back |
| `Bytes.LeBytesOfFromLe` | src/lib.rs:216-217 | re-encoding the value of any byte string at its own width gives the same bytes |
| `Bytes.ToLe16Injective` | src/lib.rs:174-175 | distinct `u128` values have distinct 16-byte encodings |
| `Text.Decimal` | src/lib.rs:66 | `format!("{}", n)` is canonical decimal: at least one digit, all digits, no leading zero except for "0", and one digit exactly when n < 10 |
| `Text.DecimalValue` | src/lib.rs:66 | the decimal text of n reads back to n under the independent digit-string reading |
| `Text.DecimalOfDigits` | src/lib.rs:72 | every canonical digit string is the decimal text of the number it denotes (the converse direction) |
| `Text.DecimalInjective` | src/lib.rs:72 | distinct numbers have distinct decimal texts |
| `Text.ColonIndexAfterDigits` | src/lib.rs:189 | in digits followed by ':', the first ':' is right after the digits |
| `Text.SplitAtColon` | src/lib.rs:189 | splitting at the first ':' recovers both digit parts of a "x:y" text |
| `Text.ColonPairInjective` | src/lib.rs:189 | the text "a:b" determines both a and b |
| `Text.Utf8` | src/lib.rs:98 | `into_bytes` never gives fewer bytes than the string has characters; with `Utf8Append` and `Utf8OfAscii` it is the byte string the handlers answer with |
| `Text.Utf8Char` | src/lib.rs:98 | a character encodes to one to four bytes, as many as its code's range needs; ASCII is one byte, equal to its code. A longer encoding has a lead byte of the matching form (`110xxxxx`, `1110xxxx`, `11110xxx`), and then continuation bytes `10xxxxxx`. Their payload bits, most significant first, rebuild the code |
| `Text.Utf8Append` | src/lib.rs:98 | `into_bytes` of a concatenation is the concatenation of the encodings |
| `Text.Utf8OfAscii` | src/lib.rs:146 | ASCII text encodes to one byte per character, equal to the character's code |
| `Text.DecimalIsAscii` | src/lib.rs:189 | decimal text is ASCII |
| `ArbuzInstance.EncodeId` | src/lib.rs:172-178 | the stored id is 32 bytes: the first 16 read back as `block`, the last 16 as `tx` |
| `ArbuzInstance.DecodeId` | src/lib.rs:208-219 | an empty slot fails with "not found"; the decode succeeds exactly when at least 32 bytes are stored, and then the id's encoding equals the first 32 bytes |
| `ArbuzInstance.DecodeEncodeId` | src/lib.rs:172-178 | decoding the stored form of any id gives that id back |
| `ArbuzInstance.EncodeDecodeId` | src/lib.rs:215-218 | slot content that decodes to an id has at least 32 bytes, and begins with that id's encoding |
| `ArbuzInstance.DecodeIndex` | src/lib.rs:225-227 | the index reads as 0 from an empty slot and as the 16-byte little-endian value otherwise; other lengths fail |
| `ArbuzInstance.NameOf` | src/lib.rs:63-67 | the name is "Magic Arbuz #" followed by canonical decimal text that reads back to the index, and it is ASCII |
| `ArbuzInstance.SymbolOf` | src/lib.rs:69-73 | the symbol is "magic-arbuz-" followed by canonical decimal text that reads back to the index, and it is ASCII |
| `ArbuzInstance.NameAndSymbolInjective` | src/lib.rs:63-73 | distinct indices give distinct names and distinct symbols |
| `ArbuzInstance.IdentifierText` | src/lib.rs:189 | the identifier has a ':'; the text before the first ':' is the canonical decimal of `block`, and the text after it is the canonical decimal of `tx` (no sign, no leading zero, never empty) |
| `ArbuzInstance.IdentifierTextInjective` | src/lib.rs:188-189 | distinct collection ids have distinct identifier texts |
| `ArbuzInstance.ContentTypeIsAscii` | src/lib.rs:146 | the content-type label is 15 ASCII characters, so by `Utf8OfAscii` its bytes are its character codes |
| `ArbuzInstance.Opcode` | src/lib.rs:24-59 | each message has the opcode of its `#[opcode]` attribute: 0, 99, 100, 101, 998, 999, 1000, 1001 or 1002, and only `Initialize` has opcode 0 |
| `ArbuzInstance.ParseMessage` | src/lib.rs:22-60 | a parsed message's opcode and fields are exactly the leading input words; otherwise the parse fails as unknown opcode or missing input |
| `ArbuzInstance.ParseMessageRoundTrip` | src/lib.rs:22-60 | every message is parsed back from its own opcode and arguments, whatever follows them |
| `ArbuzInstance.ArbuzOrbitalInstance.constructor` | src/lib.rs:17-18 | a fresh contract has empty storage and an unused guard, and satisfies the invariant |
| `ArbuzInstance.ArbuzOrbitalInstance.CollectionRef` | src/lib.rs:208-219 | `collection_ref` fails with "not found" exactly when the slot is empty, and succeeds exactly when at least 32 bytes are stored; the result re-encodes to those bytes |
| `ArbuzInstance.ArbuzOrbitalInstance.Index` | src/lib.rs:225-227 | `index` is 0 when the slot is missing or empty. It succeeds exactly when the slot is empty or 16 bytes long, and is then the value whose encoding is stored |
| `ArbuzInstance.ArbuzOrbitalInstance.Name` | src/lib.rs:63-67 | `name` fails exactly when the index cannot be read, and is otherwise `NameOf` the stored index |
| `ArbuzInstance.ArbuzOrbitalInstance.Symbol` | src/lib.rs:69-73 | `symbol` fails exactly when the index cannot be read, and is otherwise `SymbolOf` the stored index |
| `ArbuzInstance.ArbuzOrbitalInstance.ReadsMatchGuard` | src/lib.rs:208-212 | in every reachable state, the collection reference reads back exactly when the guard is set, and otherwise fails with "not found"; the index always reads, and is 0 before initialization |
| `ArbuzInstance.ArbuzOrbitalInstance.ObserveInitialization` | src/lib.rs:81 | the guard succeeds only when it was unset, and is set afterwards; a failure is "already initialized" |
| `ArbuzInstance.ArbuzOrbitalInstance.SetCollectionAlkaneId` | src/lib.rs:172-178 | the collection slot now holds the 32-byte encoding of the id; no other slot changes |
| `ArbuzInstance.ArbuzOrbitalInstance.SetIndex` | src/lib.rs:229-231 | the index slot now holds the 16-byte encoding of the index; no other slot changes |
| `ArbuzInstance.ArbuzOrbitalInstance.HandleInitialize` | src/lib.rs:77-92 | when the guard is already set: fails with "already initialized" and leaves storage unchanged. Otherwise it writes exactly the two slots, and answers with the incoming transfers followed by one transfer of 1 unit of its own id, with empty data. Afterwards `collection_ref` is the caller and `index` is the argument, and the invariant is preserved |
| `ArbuzInstance.ArbuzOrbitalInstance.HandleGetName` | src/lib.rs:94-101 | succeeds exactly when the index reads, forwarding the incoming transfers, with the UTF-8 bytes of the name as data |
| `ArbuzInstance.ArbuzOrbitalInstance.HandleGetSymbol` | src/lib.rs:103-110 | succeeds exactly when the index reads, forwarding the incoming transfers, with the UTF-8 bytes of the symbol as data |
| `ArbuzInstance.ArbuzOrbitalInstance.HandleGetTotalSupply` | src/lib.rs:112-119 | always succeeds, forwarding the incoming transfers; the data is `1u128.to_le_bytes()`: 16 bytes whose little-endian value is 1 |
| `ArbuzInstance.ArbuzOrbitalInstance.HandleGetData` | src/lib.rs:121-141 | fails as the collection reference or index read fails. Otherwise it makes one read-only call to the stored collection: inputs `[1000, index]`, no transfers, the given fuel. A remote failure becomes its failure; a remote success returns the remote data verbatim with the incoming transfers |
| `ArbuzInstance.ArbuzOrbitalInstance.HandleGetContentType` | src/lib.rs:143-148 | always succeeds, forwarding the incoming transfers, with the UTF-8 bytes of "text/javascript" as data |
| `ArbuzInstance.ArbuzOrbitalInstance.HandleGetAttributes` | src/lib.rs:150-170 | as `HandleGetData`, with inputs `[999, index]` |
| `ArbuzInstance.ArbuzOrbitalInstance.HandleGetCollectionIdentifier` | src/lib.rs:184-192 | succeeds exactly when the collection reference reads, and then answers with the UTF-8 bytes of "block:tx" in decimal; otherwise it fails with the same error |
| `ArbuzInstance.ArbuzOrbitalInstance.HandleGetCollectionAlkaneId` | src/lib.rs:194-206 | succeeds exactly when the collection reference reads. The data is then 32 bytes that decode to the stored id, and equal the slot's first 32 bytes |
| `ArbuzInstance.ArbuzOrbitalInstance.Query` | src/lib.rs:94-206 | each read-only message is answered by the handler its opcode names: the result is exactly the reference `Answer` for that message (name, symbol, supply, identifier, raw id, content type, or the remote call with opcode 1000 or 999) |
| `ArbuzInstance.ArbuzOrbitalInstance.Dispatch` | src/lib.rs:22-60 | a message that does not parse is the call's error, and nothing changes. `Initialize` fails with "already initialized" on a used guard, leaving storage as it was; otherwise it writes exactly the two slots and answers the incoming transfers plus a 1-unit mint of its own id. Every other message gets exactly its `Answer` and leaves storage and guard unchanged. The invariant is preserved |
| `ArbuzInstance.InitializeTwice` | src/lib.rs:77-92 | the first initialization succeeds with the one-unit mint. The second fails with "already initialized", and the collection id and index stay those of the first |
| `ArbuzInstance.ReadBeforeInitialize` | src/lib.rs:208-212 | before initialization, the raw collection-id query fails with "not found", while the name handler answers the name of index 0 |
| `ArbuzInstance.InitializeThenQuery` | src/lib.rs:194-206 | after initialization, the handlers answer from the stored state. The 32-byte id decodes to the initializing caller. The identifier is the caller's "block:tx", and the name is that of the given index. The data is the caller's remote answer to `[1000, index]` |

## Left out

- The host runtime and its macros: `declare_alkane!`, `to_arraybuffer_layout`, `Arc`, and the `StoragePointer` internals are foreign library code. Storage is a map from key to bytes in which a missing key reads as empty.
- `#[derive(MessageDispatch)]`: its generated parser is not part of this model. `ParseMessage` assumes the opcode is the first input word and that `Initialize` takes the next word; unknown opcodes and missing words fail.
- `get_value::<u128>` (metashrew) is not part of this model. `DecodeIndex` assumes that an empty slot reads as 0, a 16-byte slot as its little-endian value, and any other length fails. The pre-initialization name "Magic Arbuz #0" (`ReadBeforeInitialize`) rests on this assumption.
- `CallResponse::forward` is library code not part of this model. `Forward` assumes that it clones the incoming transfers in order and leaves the data empty; the response's storage map is not modelled.
- `context()` is a parameter and cannot fail here. In the source its failure aborts every handler before anything else happens.
- `observe_initialization` is the boolean `initialized`. Its own storage slot in the runtime is not modelled.
- `fuel()` and fuel accounting: fuel is a plain `nat` passed to the remote call unchanged.
- `staticcall` is a deterministic function parameter. That the handler makes exactly one call, and that the callee cannot change this contract's state, follow from the shape of the model (one application, a method without `modifies`), not from a stated postcondition.
- The host's rollback of a failed call: no handler in the model writes anything before it can fail, so there is nothing to roll back.
- Rust's distinction between a panic and an `Err`: both are `Result.Err`.
- HandleGetContentType: its contract gives the data as `Utf8(CONTENT_TYPE)`, not as a list of 15 literal bytes. Unfolding the UTF-8 encoder on a 15-character literal exceeds the verifier's resource limit; `ContentTypeIsAscii` and `Utf8OfAscii` together give the byte-by-byte reading.
- The wire encoding of responses, and the parent collection's own behaviour, belong to the host and to another contract.
