/**
 * The ERC-721 definition of the transaction-only decoding engine
 * (`ERC721Token`): its identity and a single transformer table for calls.
 * It has no log table. Its identity, method names and holder construction
 * are the same as those of `DecErc721`, whose constants it uses.
 */
module TxdecErc721 {
  import opened Wrappers
  import opened DecodedParams
  import opened Erc721Records
  import DecErc721

  /** A transaction decoder definition: identity plus one transformer table. */
  datatype TxDecoderDefinition<!C> = TxDecoderDefinition(
    entity: string, standard: string, transformers: map<string, TxTransformer<C>>)

  function SafeTransferFrom<C>(decoded: Decoded, tx: Transaction, context: C): (r: Erc721Transfer<C>)
    ensures AnchoredTx(TransferTx(r), tx, context)
  {
    var tokenContract := ContractOf(tx, context);
    Erc721Transfer(
      tokenContract, tx.from,
      HolderOf(decoded.params, "_from", tokenContract),
      HolderOf(decoded.params, "_to", tokenContract),
      Lookup(decoded.params, "_tokenId"))
  }

  function TransferFrom<C>(decoded: Decoded, tx: Transaction, context: C): (r: Erc721Transfer<C>)
    ensures AnchoredTx(TransferTx(r), tx, context)
  {
    var tokenContract := ContractOf(tx, context);
    Erc721Transfer(
      tokenContract, tx.from,
      HolderOf(decoded.params, "_from", tokenContract),
      HolderOf(decoded.params, "_to", tokenContract),
      Lookup(decoded.params, "_tokenId"))
  }

  function Approve<C>(decoded: Decoded, tx: Transaction, context: C): (r: Erc721Approve<C>)
    ensures AnchoredTx(ApproveTx(r), tx, context)
  {
    var tokenContract := ContractOf(tx, context);
    Erc721Approve(
      tokenContract, tx.from,
      HolderOf(decoded.params, "_approved", tokenContract),
      Lookup(decoded.params, "_tokenId"))
  }

  /** As in the other decoder, the operator holder wraps the raw `_operator` value. */
  function SetApprovalForAll<C>(decoded: Decoded, tx: Transaction, context: C): (r: Erc721SetApprovalForAll<C>)
    ensures AnchoredTx(SetApprovalForAllTx(r), tx, context)
  {
    var tokenContract := ContractOf(tx, context);
    Erc721SetApprovalForAll(
      tokenContract, tx.from,
      TokenHolder(Raw(Lookup(decoded.params, "_operator")), tokenContract),
      Lookup(decoded.params, "_approved"))
  }

  function Transformers<C>(): (t: map<string, TxTransformer<C>>)
    ensures t.Keys == DecErc721.TxMethods
  {
    map[
      "safeTransferFrom" := (d, tx, c) => TransferTx(SafeTransferFrom(d, tx, c)),
      "transferFrom" := (d, tx, c) => TransferTx(TransferFrom(d, tx, c)),
      "approve" := (d, tx, c) => ApproveTx(Approve(d, tx, c)),
      "setApprovalForAll" := (d, tx, c) => SetApprovalForAllTx(SetApprovalForAll(d, tx, c))
    ]
  }

  function Erc721Token<C>(): (def: TxDecoderDefinition<C>)
    ensures def.entity == "token" && def.standard == "ERC721"
    ensures def.transformers.Keys == DecErc721.TxMethods
  {
    TxDecoderDefinition(DecErc721.Entity, DecErc721.Standard, Transformers())
  }

  /**
   * Applying the table to a decoded call: a record exactly when the table
   * has the call's method name, anchored in `tx`.
   */
  function Transform<C>(decoded: Decoded, tx: Transaction, context: C): (r: Option<TxRecord<C>>)
    ensures r.Some? <==> decoded.name in DecErc721.TxMethods
    ensures r.Some? ==> AnchoredTx(r.value, tx, context)
  {
    var table := Erc721Token<C>().transformers;
    if decoded.name in table then Some(table[decoded.name](decoded, tx, context)) else None
  }

  /** `safeTransferFrom` and `transferFrom` build equal records from equal inputs. */
  lemma SafeTransferFromIsTransferFrom<C>(decoded: Decoded, tx: Transaction, context: C)
    ensures Transformers<C>()["safeTransferFrom"](decoded, tx, context)
         == Transformers<C>()["transferFrom"](decoded, tx, context)
  {
  }

  /**
   * This table and the other decoder's transaction table have the same
   * names and, name by name, build the same records; so every field property
   * proved of that table holds of this one.
   */
  lemma TransformMatchesDecoder<C>(decoded: Decoded, tx: Transaction, context: C)
    ensures Erc721Token<C>().transformers.Keys == DecErc721.Erc721TokenDecoder<C>().txTransformers.Keys
    ensures Transform(decoded, tx, context) == DecErc721.TxTransform(decoded, tx, context)
  {
  }
}
