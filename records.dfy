/**
 * The values an ERC-721 transformer builds: accounts, the token-contract
 * handle, token holders, and one record shape per method or event of the
 * EIP-721 interface. Both decoder files declare the contract, the holder and
 * the three transaction shapes identically; the log shapes exist only in the
 * decoding engine's file. Each shape is declared once here so that the two
 * files' transaction tables can be compared.
 */
module Erc721Records {
  import opened Wrappers
  import opened DecodedParams

  /** An `EthqlAccount` over an address value; the address is absent when its parameter was. */
  datatype Account = Account(address: Option<Value>)

  /** The fields of the originating transaction that the transformers read. */
  datatype Transaction = Transaction(from: Account, to: Account)

  /**
   * An `ERC721TokenContract`: the contract at `account`, reached through the
   * chain-call capability of `context`. Its lazy accessors are not modelled.
   */
  datatype TokenContract<C> = TokenContract(account: Account, context: C)

  /**
   * What a holder's `account` field holds: normally an `EthqlAccount`, but
   * the raw parameter value where a transformer does not wrap it.
   */
  datatype HolderAccount = Wrapped(account: Account) | Raw(raw: Option<Value>)

  /** An `ERC721TokenHolder`: who, and under which contract. */
  datatype TokenHolder<C> = TokenHolder(account: HolderAccount, contract: TokenContract<C>)

  /** Record of `safeTransferFrom` and `transferFrom` calls. */
  datatype Erc721Transfer<C> = Erc721Transfer(
    tokenContract: TokenContract<C>, sender: Account,
    from: TokenHolder<C>, to: TokenHolder<C>, tokenID: Option<Value>)

  /** Record of an `approve` call. */
  datatype Erc721Approve<C> = Erc721Approve(
    tokenContract: TokenContract<C>, sender: Account,
    approved: TokenHolder<C>, tokenID: Option<Value>)

  /** Record of a `setApprovalForAll` call. */
  datatype Erc721SetApprovalForAll<C> = Erc721SetApprovalForAll(
    tokenContract: TokenContract<C>, sender: Account,
    operator: TokenHolder<C>, approved: Option<Value>)

  /** Any transaction record, tagged by its shape. */
  datatype TxRecord<C> =
    | TransferTx(transfer: Erc721Transfer<C>)
    | ApproveTx(approve: Erc721Approve<C>)
    | SetApprovalForAllTx(setApprovalForAll: Erc721SetApprovalForAll<C>)
  {
    function TokenContractOf(): TokenContract<C>
    {
      match this
      case TransferTx(t) => t.tokenContract
      case ApproveTx(a) => a.tokenContract
      case SetApprovalForAllTx(s) => s.tokenContract
    }

    function Sender(): Account
    {
      match this
      case TransferTx(t) => t.sender
      case ApproveTx(a) => a.sender
      case SetApprovalForAllTx(s) => s.sender
    }

    /** Every token holder the record contains. */
    function Holders(): seq<TokenHolder<C>>
    {
      match this
      case TransferTx(t) => [t.from, t.to]
      case ApproveTx(a) => [a.approved]
      case SetApprovalForAllTx(s) => [s.operator]
    }
  }

  /** Record of a `Transfer` log. Log records carry no sender and no contract field. */
  datatype Erc721TransferEvent<C> = Erc721TransferEvent(
    from: TokenHolder<C>, to: TokenHolder<C>, tokenID: Option<Value>)

  /** Record of an `Approval` log. */
  datatype Erc721ApprovalEvent<C> = Erc721ApprovalEvent(
    owner: TokenHolder<C>, approved: TokenHolder<C>, tokenID: Option<Value>)

  /** Record of an `ApprovalForAll` log. */
  datatype Erc721ApprovalForAllEvent<C> = Erc721ApprovalForAllEvent(
    owner: TokenHolder<C>, operator: TokenHolder<C>, approved: Option<Value>)

  /** Any log record, tagged by its shape. */
  datatype LogRecord<C> =
    | TransferLog(transfer: Erc721TransferEvent<C>)
    | ApprovalLog(approval: Erc721ApprovalEvent<C>)
    | ApprovalForAllLog(approvalForAll: Erc721ApprovalForAllEvent<C>)
  {
    /** Every token holder the record contains. */
    function Holders(): seq<TokenHolder<C>>
    {
      match this
      case TransferLog(t) => [t.from, t.to]
      case ApprovalLog(a) => [a.owner, a.approved]
      case ApprovalForAllLog(f) => [f.owner, f.operator]
    }
  }

  /** A transformer of a call, and of a log: a function of decoded input, transaction and context. */
  type TxTransformer<!C> = (Decoded, Transaction, C) -> TxRecord<C>
  type LogTransformer<!C> = (Decoded, Transaction, C) -> LogRecord<C>

  /** The contract handle every transformer builds: the contract at the transaction's `to`. */
  function ContractOf<C>(tx: Transaction, context: C): TokenContract<C>
  {
    TokenContract(tx.to, context)
  }

  /**
   * The holder of the account built from parameter `name`, under `contract`:
   * its address is the value of the first parameter of that name, absent
   * when there is none.
   */
  function HolderOf<C>(ps: seq<Param>, name: string, contract: TokenContract<C>): (h: TokenHolder<C>)
    ensures h.contract == contract
    ensures h.account.Wrapped?
    ensures h.account.account.address.Some? <==> exists p | p in ps :: p.name == name
    ensures h.account.account.address.Some? ==> Param(name, h.account.account.address.value) in ps
    ensures h.account.account.address.Some? ==>
              exists i | 0 <= i < |ps| :: FirstNamed(ps, name, i) && ps[i].value == h.account.account.address.value
  {
    TokenHolder(Wrapped(Account(Lookup(ps, name))), contract)
  }

  /**
   * A transaction record is anchored in `tx`: it was sent by `tx.from`, its
   * contract is the one at `tx.to`, and every holder in it shares that contract.
   */
  ghost predicate AnchoredTx<C>(r: TxRecord<C>, tx: Transaction, context: C)
  {
    && r.Sender() == tx.from
    && r.TokenContractOf() == ContractOf(tx, context)
    && forall h | h in r.Holders() :: h.contract == ContractOf(tx, context)
  }

  /** A log record is anchored in `tx`: every holder in it shares the contract at `tx.to`. */
  ghost predicate AnchoredLog<C>(r: LogRecord<C>, tx: Transaction, context: C)
  {
    forall h | h in r.Holders() :: h.contract == ContractOf(tx, context)
  }
}
