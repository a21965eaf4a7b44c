/**
 * The ERC-721 decoder definition of the decoding engine
 * (`ERC721TokenDecoder`): its identity, its transaction table and its log
 * table. Every transformer is a pure function of the decoded input, the
 * originating transaction and an opaque context `C`.
 */
module DecErc721 {
  import opened Wrappers
  import opened DecodedParams
  import opened Erc721Records

  const Entity: string := "token"
  const Standard: string := "ERC721"

  /** The method names the transaction table has an entry for. */
  const TxMethods: set<string> := {"safeTransferFrom", "transferFrom", "approve", "setApprovalForAll"}

  /** The event names the log table has an entry for. */
  const LogEvents: set<string> := {"transfer", "approval", "approvalForAll"}

  /** A decoder definition: identity plus one transformer table for calls and one for logs. */
  datatype DecoderDefinition<!C> = DecoderDefinition(
    entity: string, standard: string,
    txTransformers: map<string, TxTransformer<C>>,
    logTransformers: map<string, LogTransformer<C>>)

  // ---------------------------------------------------------------------------
  // Transaction transformers

  function SafeTransferFrom<C>(decoded: Decoded, tx: Transaction, context: C): (r: Erc721Transfer<C>)
    ensures AnchoredTx(TransferTx(r), tx, context)
  {
    var tokenContract := ContractOf(tx, context);
    Erc721Transfer(
      tokenContract, tx.from,
      HolderOf(decoded.params, "_from", tokenContract),
      HolderOf(decoded.params, "_to", tokenContract),
      Lookup(decoded.params, "_tokenId"))
  }

  function TransferFrom<C>(decoded: Decoded, tx: Transaction, context: C): (r: Erc721Transfer<C>)
    ensures AnchoredTx(TransferTx(r), tx, context)
  {
    var tokenContract := ContractOf(tx, context);
    Erc721Transfer(
      tokenContract, tx.from,
      HolderOf(decoded.params, "_from", tokenContract),
      HolderOf(decoded.params, "_to", tokenContract),
      Lookup(decoded.params, "_tokenId"))
  }

  function Approve<C>(decoded: Decoded, tx: Transaction, context: C): (r: Erc721Approve<C>)
    ensures AnchoredTx(ApproveTx(r), tx, context)
  {
    var tokenContract := ContractOf(tx, context);
    Erc721Approve(
      tokenContract, tx.from,
      HolderOf(decoded.params, "_approved", tokenContract),
      Lookup(decoded.params, "_tokenId"))
  }

  /** The operator holder wraps the raw `_operator` value, not an account built from it. */
  function SetApprovalForAll<C>(decoded: Decoded, tx: Transaction, context: C): (r: Erc721SetApprovalForAll<C>)
    ensures AnchoredTx(SetApprovalForAllTx(r), tx, context)
  {
    var tokenContract := ContractOf(tx, context);
    Erc721SetApprovalForAll(
      tokenContract, tx.from,
      TokenHolder(Raw(Lookup(decoded.params, "_operator")), tokenContract),
      Lookup(decoded.params, "_approved"))
  }

  // ---------------------------------------------------------------------------
  // Log transformers: they read `decoded.events`, never `decoded.params`

  function TransferEvent<C>(decoded: Decoded, tx: Transaction, context: C): (r: Erc721TransferEvent<C>)
    ensures AnchoredLog(TransferLog(r), tx, context)
  {
    var tokenContract := ContractOf(tx, context);
    Erc721TransferEvent(
      HolderOf(decoded.events, "_from", tokenContract),
      HolderOf(decoded.events, "_to", tokenContract),
      Lookup(decoded.events, "_tokenId"))
  }

  function ApprovalEvent<C>(decoded: Decoded, tx: Transaction, context: C): (r: Erc721ApprovalEvent<C>)
    ensures AnchoredLog(ApprovalLog(r), tx, context)
  {
    var tokenContract := ContractOf(tx, context);
    Erc721ApprovalEvent(
      HolderOf(decoded.events, "_owner", tokenContract),
      HolderOf(decoded.events, "_approved", tokenContract),
      Lookup(decoded.events, "_tokenId"))
  }

  /** As written: `approved` is read from the `_tokenId` event parameter. */
  function ApprovalForAllEvent<C>(decoded: Decoded, tx: Transaction, context: C): (r: Erc721ApprovalForAllEvent<C>)
    ensures AnchoredLog(ApprovalForAllLog(r), tx, context)
  {
    var tokenContract := ContractOf(tx, context);
    Erc721ApprovalForAllEvent(
      HolderOf(decoded.events, "_owner", tokenContract),
      HolderOf(decoded.events, "_operator", tokenContract),
      Lookup(decoded.events, "_tokenId"))
  }

  /** The evident intent: `approved` is the event's `_approved` flag. */
  function ApprovalForAllEventIntended<C>(decoded: Decoded, tx: Transaction, context: C): (r: Erc721ApprovalForAllEvent<C>)
    ensures AnchoredLog(ApprovalForAllLog(r), tx, context)
  {
    var tokenContract := ContractOf(tx, context);
    Erc721ApprovalForAllEvent(
      HolderOf(decoded.events, "_owner", tokenContract),
      HolderOf(decoded.events, "_operator", tokenContract),
      Lookup(decoded.events, "_approved"))
  }

  // ---------------------------------------------------------------------------
  // The tables and the definition

  function TxTransformers<C>(): (t: map<string, TxTransformer<C>>)
    ensures t.Keys == TxMethods
  {
    map[
      "safeTransferFrom" := (d, tx, c) => TransferTx(SafeTransferFrom(d, tx, c)),
      "transferFrom" := (d, tx, c) => TransferTx(TransferFrom(d, tx, c)),
      "approve" := (d, tx, c) => ApproveTx(Approve(d, tx, c)),
      "setApprovalForAll" := (d, tx, c) => SetApprovalForAllTx(SetApprovalForAll(d, tx, c))
    ]
  }

  /** The log table as the source has it, `approvalForAll` quirk included. */
  function LogTransformers<C>(): (t: map<string, LogTransformer<C>>)
    ensures t.Keys == LogEvents
  {
    map[
      "transfer" := (d, tx, c) => TransferLog(TransferEvent(d, tx, c)),
      "approval" := (d, tx, c) => ApprovalLog(ApprovalEvent(d, tx, c)),
      "approvalForAll" := (d, tx, c) => ApprovalForAllLog(ApprovalForAllEvent(d, tx, c))
    ]
  }

  /** The log table with the `approvalForAll` entry corrected. */
  function IntendedLogTransformers<C>(): (t: map<string, LogTransformer<C>>)
    ensures t.Keys == LogEvents
  {
    LogTransformers()["approvalForAll" := (d, tx, c) => ApprovalForAllLog(ApprovalForAllEventIntended(d, tx, c))]
  }

  function Erc721TokenDecoder<C>(): (def: DecoderDefinition<C>)
    ensures def.entity == "token" && def.standard == "ERC721"
    ensures def.txTransformers.Keys == TxMethods
    ensures def.logTransformers.Keys == LogEvents
  {
    DecoderDefinition(Entity, Standard, TxTransformers(), LogTransformers())
  }

  /**
   * Applying the transaction table to a decoded call: a record exactly when
   * the table has the call's method name, anchored in `tx`, of the shape
   * that method declares.
   */
  function TxTransform<C>(decoded: Decoded, tx: Transaction, context: C): (r: Option<TxRecord<C>>)
    ensures r.Some? <==> decoded.name in TxMethods
    ensures r.Some? ==> AnchoredTx(r.value, tx, context)
    ensures decoded.name in {"safeTransferFrom", "transferFrom"} ==> r.Some? && r.value.TransferTx?
    ensures decoded.name == "approve" ==> r.Some? && r.value.ApproveTx?
    ensures decoded.name == "setApprovalForAll" ==> r.Some? && r.value.SetApprovalForAllTx?
  {
    var table := Erc721TokenDecoder<C>().txTransformers;
    if decoded.name in table then Some(table[decoded.name](decoded, tx, context)) else None
  }

  /**
   * Applying the log table to a decoded log: a record exactly when the table
   * has the event name, anchored in `tx`, of the shape that event declares.
   */
  function LogTransform<C>(decoded: Decoded, tx: Transaction, context: C): (r: Option<LogRecord<C>>)
    ensures r.Some? <==> decoded.name in LogEvents
    ensures r.Some? ==> AnchoredLog(r.value, tx, context)
    ensures decoded.name == "transfer" ==> r.Some? && r.value.TransferLog?
    ensures decoded.name == "approval" ==> r.Some? && r.value.ApprovalLog?
    ensures decoded.name == "approvalForAll" ==> r.Some? && r.value.ApprovalForAllLog?
  {
    var table := Erc721TokenDecoder<C>().logTransformers;
    if decoded.name in table then Some(table[decoded.name](decoded, tx, context)) else None
  }

  // ---------------------------------------------------------------------------
  // Properties of the tables

  /** `safeTransferFrom` and `transferFrom` build equal records from equal inputs. */
  lemma SafeTransferFromIsTransferFrom<C>(decoded: Decoded, tx: Transaction, context: C)
    ensures TxTransformers<C>()["safeTransferFrom"](decoded, tx, context)
         == TxTransformers<C>()["transferFrom"](decoded, tx, context)
  {
  }

  /** The holder a transformer builds for an address value, absent or present. */
  function AccountHolder<C>(v: Option<Value>, tx: Transaction, context: C): TokenHolder<C>
  {
    TokenHolder(Wrapped(Account(v)), ContractOf(tx, context))
  }

  /**
   * A transfer call carrying `_from`, `_to` and `_tokenId` (each possibly
   * absent) yields the transfer from `_from` to `_to` of token `_tokenId`,
   * sent by `tx.from`. A missing parameter gives an account without address
   * or an absent token, never an error.
   */
  lemma TransferFields<C>(decoded: Decoded, tx: Transaction, context: C, from: Option<Value>, to: Option<Value>, tokenId: Option<Value>)
    requires decoded.name in {"safeTransferFrom", "transferFrom"}
    requires UniqueNames(decoded.params)
    requires Carries(decoded.params, "_from", from)
    requires Carries(decoded.params, "_to", to)
    requires Carries(decoded.params, "_tokenId", tokenId)
    ensures TxTransform(decoded, tx, context) == Some(TransferTx(Erc721Transfer(
              ContractOf(tx, context), tx.from,
              AccountHolder(from, tx, context), AccountHolder(to, tx, context), tokenId)))
  {
    LookupCarried(decoded.params, "_from", from);
    LookupCarried(decoded.params, "_to", to);
    LookupCarried(decoded.params, "_tokenId", tokenId);
  }

  /** An `approve` call yields the approval of `_approved` for token `_tokenId`, each possibly absent. */
  lemma ApproveFields<C>(decoded: Decoded, tx: Transaction, context: C, approved: Option<Value>, tokenId: Option<Value>)
    requires decoded.name == "approve"
    requires UniqueNames(decoded.params)
    requires Carries(decoded.params, "_approved", approved)
    requires Carries(decoded.params, "_tokenId", tokenId)
    ensures TxTransform(decoded, tx, context) == Some(ApproveTx(Erc721Approve(
              ContractOf(tx, context), tx.from, AccountHolder(approved, tx, context), tokenId)))
  {
    LookupCarried(decoded.params, "_approved", approved);
    LookupCarried(decoded.params, "_tokenId", tokenId);
  }

  /**
   * A `setApprovalForAll` call yields an operator holder over the raw
   * `_operator` value (not an account) and the `_approved` flag, each
   * possibly absent.
   */
  lemma SetApprovalForAllFields<C>(decoded: Decoded, tx: Transaction, context: C, operator: Option<Value>, approved: Option<Value>)
    requires decoded.name == "setApprovalForAll"
    requires UniqueNames(decoded.params)
    requires Carries(decoded.params, "_operator", operator)
    requires Carries(decoded.params, "_approved", approved)
    ensures TxTransform(decoded, tx, context) == Some(SetApprovalForAllTx(Erc721SetApprovalForAll(
              ContractOf(tx, context), tx.from,
              TokenHolder(Raw(operator), ContractOf(tx, context)), approved)))
  {
    LookupCarried(decoded.params, "_operator", operator);
    LookupCarried(decoded.params, "_approved", approved);
  }

  /** A `Transfer` log yields the transfer from `_from` to `_to` of token `_tokenId`, each possibly absent. */
  lemma TransferEventFields<C>(decoded: Decoded, tx: Transaction, context: C, from: Option<Value>, to: Option<Value>, tokenId: Option<Value>)
    requires decoded.name == "transfer"
    requires UniqueNames(decoded.events)
    requires Carries(decoded.events, "_from", from)
    requires Carries(decoded.events, "_to", to)
    requires Carries(decoded.events, "_tokenId", tokenId)
    ensures LogTransform(decoded, tx, context) == Some(TransferLog(Erc721TransferEvent(
              AccountHolder(from, tx, context), AccountHolder(to, tx, context), tokenId)))
  {
    LookupCarried(decoded.events, "_from", from);
    LookupCarried(decoded.events, "_to", to);
    LookupCarried(decoded.events, "_tokenId", tokenId);
  }

  /** An `Approval` log yields `_owner`'s approval of `_approved` for token `_tokenId`, each possibly absent. */
  lemma ApprovalEventFields<C>(decoded: Decoded, tx: Transaction, context: C, owner: Option<Value>, approved: Option<Value>, tokenId: Option<Value>)
    requires decoded.name == "approval"
    requires UniqueNames(decoded.events)
    requires Carries(decoded.events, "_owner", owner)
    requires Carries(decoded.events, "_approved", approved)
    requires Carries(decoded.events, "_tokenId", tokenId)
    ensures LogTransform(decoded, tx, context) == Some(ApprovalLog(Erc721ApprovalEvent(
              AccountHolder(owner, tx, context), AccountHolder(approved, tx, context), tokenId)))
  {
    LookupCarried(decoded.events, "_owner", owner);
    LookupCarried(decoded.events, "_approved", approved);
    LookupCarried(decoded.events, "_tokenId", tokenId);
  }

  /**
   * An `ApprovalForAll` log yields holders for `_owner` and `_operator`, and
   * takes `approved` from the `_tokenId` parameter: absent when the log has none.
   */
  lemma ApprovalForAllEventFields<C>(decoded: Decoded, tx: Transaction, context: C, owner: Option<Value>, operator: Option<Value>)
    requires decoded.name == "approvalForAll"
    requires UniqueNames(decoded.events)
    requires Carries(decoded.events, "_owner", owner)
    requires Carries(decoded.events, "_operator", operator)
    ensures LogTransform(decoded, tx, context) == Some(ApprovalForAllLog(Erc721ApprovalForAllEvent(
              AccountHolder(owner, tx, context), AccountHolder(operator, tx, context),
              Lookup(decoded.events, "_tokenId"))))
    ensures (forall p | p in decoded.events :: p.name != "_tokenId")
        ==> LogTransform(decoded, tx, context).value.approvalForAll.approved == None
  {
    LookupCarried(decoded.events, "_owner", owner);
    LookupCarried(decoded.events, "_operator", operator);
  }

  /**
   * The discrepancy: for an `ApprovalForAll` log shaped as EIP-721 declares it
   * (`_owner`, `_operator`, `bool _approved`), the record never carries the flag.
   */
  lemma ApprovalForAllEventLosesFlag<C>(owner: Value, operator: Value, flag: bool, tx: Transaction, context: C)
    ensures var events := [Param("_owner", owner), Param("_operator", operator), Param("_approved", Bool(flag))];
            ApprovalForAllEvent(Decoded("approvalForAll", [], events), tx, context).approved == None
  {
  }

  /** The corrected transformer carries the `_approved` flag of such a log. */
  lemma ApprovalForAllEventIntendedFields<C>(decoded: Decoded, tx: Transaction, context: C, owner: Option<Value>, operator: Option<Value>, flag: bool)
    requires UniqueNames(decoded.events)
    requires Carries(decoded.events, "_owner", owner)
    requires Carries(decoded.events, "_operator", operator)
    requires Param("_approved", Bool(flag)) in decoded.events
    ensures ApprovalForAllEventIntended(decoded, tx, context) == Erc721ApprovalForAllEvent(
              AccountHolder(owner, tx, context), AccountHolder(operator, tx, context), Some(Bool(flag)))
  {
    LookupCarried(decoded.events, "_owner", owner);
    LookupCarried(decoded.events, "_operator", operator);
    LookupBound(decoded.events, "_approved", Bool(flag));
  }

  /**
   * The corrected log table agrees with the source's on every event but
   * `approvalForAll`, and there only the `approved` field differs.
   */
  lemma IntendedLogTableDiffersOnlyInApproved<C>(name: string, decoded: Decoded, tx: Transaction, context: C)
    requires name in LogEvents
    ensures name != "approvalForAll" ==>
              IntendedLogTransformers<C>()[name](decoded, tx, context) == LogTransformers<C>()[name](decoded, tx, context)
    ensures name == "approvalForAll" ==>
              var fixed := IntendedLogTransformers<C>()[name](decoded, tx, context).approvalForAll;
              var written := LogTransformers<C>()[name](decoded, tx, context).approvalForAll;
              fixed.owner == written.owner && fixed.operator == written.operator
              && fixed.approved == Lookup(decoded.events, "_approved")
  {
  }

  /** A call's record depends on its name and `params` only, never on `events`. */
  lemma TxTransformReadsParamsOnly<C>(d1: Decoded, d2: Decoded, tx: Transaction, context: C)
    requires d1.name == d2.name && d1.params == d2.params
    ensures TxTransform(d1, tx, context) == TxTransform(d2, tx, context)
  {
  }

  /** A log's record depends on its name and `events` only, never on `params`. */
  lemma LogTransformReadsEventsOnly<C>(d1: Decoded, d2: Decoded, tx: Transaction, context: C)
    requires d1.name == d2.name && d1.events == d2.events
    ensures LogTransform(d1, tx, context) == LogTransform(d2, tx, context)
  {
  }
}
