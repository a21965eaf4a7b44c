# ERC-721 transformer tables of ethql's decoders

ethql decodes Ethereum call data and event logs into records for each token
standard it knows. A decoder definition has an identity (entity `"token"`, standard
`"ERC721"`) and transformer tables. Each table maps a method or event name of the
EIP-721 interface to a pure builder. A builder takes the decoded parameters, the
originating transaction and an opaque context. It returns a record. Every builder
makes one token-contract handle over the transaction's `to` account, and every
`TokenHolder` in the record shares that handle. A transaction record also holds
the handle itself, in its `tokenContract` field; a log record has no such field.

The model covers both copies of these tables:

- `DecErc721` (`src/dec/decoders/erc721TokenDecoder.ts`) has the definition
  `ERC721TokenDecoder`, with a transaction table of four entries
  (`safeTransferFrom`, `transferFrom`, `approve`, `setApprovalForAll`) and a log table of
  three entries (`transfer`, `approval`, `approvalForAll`).
- `TxdecErc721` (`src/txdec/decoders/erc721Token.ts`) has the definition `ERC721Token`,
  with only one table of the same four transaction entries.

The other modules:

- `DecodedParams` holds the decoded input and the by-name parameter lookup.
- `Erc721Records` holds the accounts, the contract handle, the holders and the record
  shapes. Both source files declare the contract, the holder and the three transaction
  shapes, identically. The three log shapes exist only in
  `src/dec/decoders/erc721TokenDecoder.ts`. Each shape is declared once here, so the
  two transaction tables can be compared.
- `Registry` records the registration order of the two engines.

Modelling choices:

- A table is a `map` from name to a function value, as the source's object literal of
  arrow functions is. Applying a table to a decoded input (`TxTransform`, `LogTransform`,
  `Transform`) gives `None` for a name the table does not have.
- A parameter value is text or a flag (`Value`). A parameter the input does not
  carry yields `None`, which stands for JavaScript's `undefined`. It is never an error.
- The lookup `extractParamValue` is not among the modelled files. `DecodedParams.Lookup`
  assumes that it returns the value of the first parameter of that name, and nothing
  when there is none.
- The context is a type parameter `C`, so the model can do nothing with it except pass
  it into the contract handle.
- In the `setApprovalForAll` transaction record, the operator holder wraps the raw
  `_operator` value, not an account built from it. The model keeps this:
  `HolderAccount.Raw` versus `HolderAccount.Wrapped`.
- In the `approvalForAll` log record, `approved` is read from the `_tokenId` event
  parameter. The source table keeps this, and the model does too. A corrected
  table stands beside it (see Findings).
- `ERC721ApprovalForAllEvent` declares `approved: boolean`
  (`src/dec/decoders/erc721TokenDecoder.ts:75-79`), but line 184 fills it from
  `_tokenId` (see Findings). `src/dec/index.ts:11` has the ERC-721 registration
  commented out, so only the transaction engine of `src/txdec/index.ts` registers an
  ERC-721 definition.

## Model

Every transformer starts by building a new `ERC721TokenContract` over the
transaction's `to` account and the context, for example at
`src/dec/decoders/erc721TokenDecoder.ts:101` and `src/txdec/decoders/erc721Token.ts:78`.
`Erc721Records.ContractOf` models that step. `Erc721Records.HolderOf` models the
holders built over a new `EthqlAccount` of a parameter value.

| member | source | states |
|---|---|---|
| DecodedParams.Lookup | src/dec/decoders/erc721TokenDecoder.ts:102 | the lookup is absent exactly when no parameter has the name; a value it returns is that of the first parameter of that name |
| DecodedParams.LookupFirst | src/dec/decoders/erc721TokenDecoder.ts:102 | the first parameter of a name is the one found (first match wins) |
| DecodedParams.LookupBound | src/dec/decoders/erc721TokenDecoder.ts:110 | with unique names, a parameter present in the list is exactly what the lookup returns |
| DecodedParams.LookupCarried | src/dec/decoders/erc721TokenDecoder.ts:110 | with unique names, the lookup returns exactly what the list carries under the name: the parameter's value, or absent when no parameter has it |
| Erc721Records.HolderOf | src/dec/decoders/erc721TokenDecoder.ts:102-109 | a holder built from a named parameter lies under the given contract and wraps an account (never a raw value). The account has an address exactly when the parameter is present, and that address is the value of the first parameter of that name |
| DecErc721.SafeTransferFrom | src/dec/decoders/erc721TokenDecoder.ts:100-112 | the record's sender is `tx.from`, its contract is the one at `tx.to`, and both holders share that contract |
| DecErc721.TransferFrom | src/dec/decoders/erc721TokenDecoder.ts:114-126 | the record's sender is `tx.from`, its contract is the one at `tx.to`, and both holders share that contract |
| DecErc721.Approve | src/dec/decoders/erc721TokenDecoder.ts:128-137 | the record's sender is `tx.from`, its contract is the one at `tx.to`, and the approved holder shares it |
| DecErc721.SetApprovalForAll | src/dec/decoders/erc721TokenDecoder.ts:139-148 | the record's sender is `tx.from`, its contract is the one at `tx.to`, and the operator holder shares it |
| DecErc721.TransferEvent | src/dec/decoders/erc721TokenDecoder.ts:152-162 | both holders of the log record share the contract at `tx.to` |
| DecErc721.ApprovalEvent | src/dec/decoders/erc721TokenDecoder.ts:164-174 | both holders of the log record share the contract at `tx.to` |
| DecErc721.ApprovalForAllEvent | src/dec/decoders/erc721TokenDecoder.ts:176-186 | both holders of the log record share the contract at `tx.to` (as written, `approved` is from `_tokenId`) |
| DecErc721.ApprovalForAllEventIntended | src/dec/decoders/erc721TokenDecoder.ts:176-186 | corrected transformer: both holders share the contract at `tx.to` |
| DecErc721.TxTransformers | src/dec/decoders/erc721TokenDecoder.ts:99-149 | the transaction table has exactly the four method names |
| DecErc721.LogTransformers | src/dec/decoders/erc721TokenDecoder.ts:151-187 | the log table has exactly the three event names |
| DecErc721.IntendedLogTransformers | src/dec/decoders/erc721TokenDecoder.ts:151-187 | the corrected log table has the same three event names |
| DecErc721.Erc721TokenDecoder | src/dec/decoders/erc721TokenDecoder.ts:94-99 | the definition's identity is entity `"token"`, standard `"ERC721"`, and its tables have exactly the four method and three event names |
| DecErc721.TxTransform | src/dec/decoders/erc721TokenDecoder.ts:99-149 | a call yields a record exactly when its name is one of the four methods. The record is anchored in `tx` (sender, contract, shared by every holder) and has the shape its method declares. Any other name yields none |
| DecErc721.LogTransform | src/dec/decoders/erc721TokenDecoder.ts:151-187 | a log yields a record exactly when its name is one of the three events. The record's holders share the contract at `tx.to`, and the record has the shape its event declares |
| DecErc721.SafeTransferFromIsTransferFrom | src/dec/decoders/erc721TokenDecoder.ts:100-126 | the `safeTransferFrom` and `transferFrom` entries build equal records from equal inputs |
| DecErc721.TransferFields | src/dec/decoders/erc721TokenDecoder.ts:100-126 | a transfer call yields the whole record: holders over accounts of `_from` and `_to`, token `_tokenId`, sender `tx.from`, contract at `tx.to`. A missing parameter gives an account without address or an absent token |
| DecErc721.ApproveFields | src/dec/decoders/erc721TokenDecoder.ts:128-137 | an `approve` call yields the whole record: approved holder over `_approved`, token `_tokenId`, each absent when its parameter is |
| DecErc721.SetApprovalForAllFields | src/dec/decoders/erc721TokenDecoder.ts:139-148 | a `setApprovalForAll` call yields the whole record: operator holder over the raw `_operator` value, `approved` from `_approved`, each absent when its parameter is |
| DecErc721.TransferEventFields | src/dec/decoders/erc721TokenDecoder.ts:152-162 | a `transfer` log yields holders over `_from` and `_to` from its events and token `_tokenId`, each absent when its parameter is |
| DecErc721.ApprovalEventFields | src/dec/decoders/erc721TokenDecoder.ts:164-174 | an `approval` log yields holders over `_owner` and `_approved` and token `_tokenId`, each absent when its parameter is |
| DecErc721.ApprovalForAllEventFields | src/dec/decoders/erc721TokenDecoder.ts:176-186 | an `approvalForAll` log yields holders over `_owner` and `_operator` (absent addresses when missing), and takes `approved` from `_tokenId`, so it is absent when the log has no `_tokenId` |
| DecErc721.ApprovalForAllEventLosesFlag | src/dec/decoders/erc721TokenDecoder.ts:184 | for a log shaped as EIP-721's ApprovalForAll event, the as-written record's `approved` is absent whatever the flag |
| DecErc721.ApprovalForAllEventIntendedFields | src/dec/decoders/erc721TokenDecoder.ts:176-186 | the corrected transformer carries the log's `_approved` flag and holders over `_owner` and `_operator` |
| DecErc721.IntendedLogTableDiffersOnlyInApproved | src/dec/decoders/erc721TokenDecoder.ts:151-187 | the corrected log table agrees with the source table on `transfer` and `approval`. On `approvalForAll` only `approved` differs, and the corrected table reads it from `_approved` |
| DecErc721.TxTransformReadsParamsOnly | src/dec/decoders/erc721TokenDecoder.ts:100-148 | a call's record depends on its name and `params`, never on `events` |
| DecErc721.LogTransformReadsEventsOnly | src/dec/decoders/erc721TokenDecoder.ts:152-186 | a log's record depends on its name and `events`, never on `params` |
| TxdecErc721.SafeTransferFrom | src/txdec/decoders/erc721Token.ts:77-89 | the record's sender is `tx.from`, its contract is the one at `tx.to`, and both holders share it |
| TxdecErc721.TransferFrom | src/txdec/decoders/erc721Token.ts:91-103 | the record's sender is `tx.from`, its contract is the one at `tx.to`, and both holders share it |
| TxdecErc721.Approve | src/txdec/decoders/erc721Token.ts:105-114 | the record's sender is `tx.from`, its contract is the one at `tx.to`, and the approved holder shares it |
| TxdecErc721.SetApprovalForAll | src/txdec/decoders/erc721Token.ts:116-125 | the record's sender is `tx.from`, its contract is the one at `tx.to`, and the operator holder shares it |
| TxdecErc721.Transformers | src/txdec/decoders/erc721Token.ts:76-126 | the single table has exactly the four method names |
| TxdecErc721.Erc721Token | src/txdec/decoders/erc721Token.ts:71-76 | identity is entity `"token"`, standard `"ERC721"`, and the one table (no log table) has exactly the four method names |
| TxdecErc721.Transform | src/txdec/decoders/erc721Token.ts:76-126 | a call yields a record exactly when its name is one of the four methods, and the record is anchored in `tx` |
| TxdecErc721.SafeTransferFromIsTransferFrom | src/txdec/decoders/erc721Token.ts:77-103 | the `safeTransferFrom` and `transferFrom` entries build equal records from equal inputs |
| TxdecErc721.TransformMatchesDecoder | src/txdec/decoders/erc721Token.ts:76-126 | this table has the same names as the other decoder's transaction table and, for every input, builds the same record, so all of `DecErc721`'s field properties hold here |
| Registry.RegistrationOrder | src/txdec/index.ts:10-11 | the transaction engine registers ERC-20 ahead of ERC-721. The decoding engine (`src/dec/index.ts`) does not register the ERC-721 definition at all |

## Left out

- `ERC721TokenContract.symbol`, `totalSupply` and `balanceOf` are chain calls through web3 that fail soft. The contract handle is only the pair (account at `tx.to`, context).
- ABI loading and selector decoding (`require` of `erc721.json`, `createAbiDecoder`) are not modelled. They load a file and rely on a foreign library and Keccak-256. The model starts from an already decoded input.
- The dispatch engines (`SimpleDecodingEngine`, `SimpleTxDecodingEngine`) are not part of this model. Applying a table by name stands in for their last step. First-match-wins over the registry is recorded only as the constant order in `Registry`.
- `extractParamValue` is not part of this model. `DecodedParams.Lookup` is an assumption about it: the first parameter of that name, or absent.
- The ERC-20 decoders are not part of this model. They appear only by name in `Registry`.
- Object identity is not modelled. Each transformer call allocates a new contract object and new holder objects. Records are values here, so "the same contract" means structurally equal.
- A transaction without a `to` account (contract creation) is not modelled. `EthqlTransaction` is not part of this model, and `Transaction.to` is always an account.
- Transaction and log fields other than `from` and `to` are left out. No transformer reads them.

## Findings

| source | as written | input that shows it | evidently intended | confidence | as-written member | corrected member |
|---|---|---|---|---|---|---|
| src/dec/decoders/erc721TokenDecoder.ts:184 | the `approvalForAll` log record takes `approved` from the `_tokenId` event parameter | an ApprovalForAll log as EIP-721 declares it, with parameters `_owner`, `_operator` and `bool _approved` = true; the record's `approved` is absent | `approved` is the log's `_approved` flag, as the record type `ERC721ApprovalForAllEvent` (lines 75-79) and the transaction `setApprovalForAll` entry suggest | medium, not executed (the ABI file is not part of this model) | DecErc721.ApprovalForAllEventLosesFlag | DecErc721.ApprovalForAllEventIntendedFields |
