/**
 * The order in which each engine's module wiring registers its decoder
 * definitions. The engines themselves are not part of this model; if their
 * dispatch is first-match-wins in this order, as their design intends, an
 * earlier definition wins every selector collision with a later one.
 */
module Registry {

  /** The decoding engine registers only the ERC-20 definition; the ERC-721 line is disabled. */
  const DecodingEngineOrder: seq<string> := ["Erc20TokenDecoder"]

  /** The transaction decoding engine registers ERC-20 first, then ERC-721. */
  const TxDecodingEngineOrder: seq<string> := ["Erc20Token", "ERC721Token"]

  /** `a` is registered, and ahead of `b` if `b` is registered too. */
  predicate RegisteredBefore(order: seq<string>, a: string, b: string)
  {
    exists i | 0 <= i < |order| :: order[i] == a && forall j | 0 <= j <= i :: order[j] != b
  }

  lemma RegistrationOrder()
    ensures RegisteredBefore(TxDecodingEngineOrder, "Erc20Token", "ERC721Token")
    ensures !RegisteredBefore(TxDecodingEngineOrder, "ERC721Token", "Erc20Token")
    ensures "ERC721TokenDecoder" !in DecodingEngineOrder
  {
    assert TxDecodingEngineOrder[0] == "Erc20Token";
  }
}
