/** The desired-action records `{to, from, data, value}` that the wallet's two
    buttons build and hand to the request facade. */
module Requests {
  import opened Wrappers
  import opened Abi
  import opened Balances
  import opened Errors

  /** A desired action: call `to` with `data`, sending `value` wei. `from` is
      carried along but never read by the pipeline. */
  datatype Request = Request(to: Address, from: Address, data: Bytes, value: nat)

  /** 10^16 base units, 0.01 of an 18-decimal token: the amount `sendTokenToVault` transfers. */
  const TRANSFER_AMOUNT: nat := 10_000_000_000_000_000

  /** `sendTokenToVault`: transfer 0.01 of the ERC-20 token from the smart
      account to the owner's wallet. */
  function TokenRequest(smartAccount: Address, owner: Address, encode: AbiCall -> Bytes): Request {
    Request(ERC_20_CONTRACT_ADDRESS, smartAccount, encode(Transfer(owner, TRANSFER_AMOUNT)), 0)
  }

  /** The ERC-20 request targets the token contract, sends no ether, and its
      data is `transfer(owner, 10^16)`; an injective encoder makes the
      recipient and the amount recoverable from the data. */
  lemma TokenRequestShape(smartAccount: Address, owner: Address, encode: AbiCall -> Bytes)
    ensures var r := TokenRequest(smartAccount, owner, encode);
      && r.to == ERC_20_CONTRACT_ADDRESS && r.from == smartAccount && r.value == 0
      && r.data == encode(Transfer(owner, TRANSFER_AMOUNT))
    ensures Injective(encode) ==> forall owner' ::
      TokenRequest(smartAccount, owner', encode).data == TokenRequest(smartAccount, owner, encode).data ==> owner' == owner
  {
  }

  /** `sendNftToVault(nft)`: transfer one unit of the ERC-1155 token `nft.id`
      from the smart account to the owner. Reading `.id` of an absent entry is
      a TypeError; encoding an absent id as `uint256` fails in the encoder. */
  function NftRequest(smartAccount: Address, owner: Address, nft: Option<BalanceEntry>, encode: AbiCall -> Bytes): (r: Result<Request, Failure>)
    ensures nft.None? ==> r == Failure(TypeErrorReadingId)
    ensures nft.Some? && nft.value.id.None? ==> r == Failure(InvalidBigNumberValue)
    ensures nft.Some? && nft.value.id.Some? ==> r.Success?
    ensures r.Success? ==>
              && nft.Some? && nft.value.id.Some?
              && r.value.to == ERC_1155_CONTRACT_ADDRESS && r.value.from == smartAccount && r.value.value == 0
              && r.value.data == encode(SafeTransferFrom(smartAccount, owner, nft.value.id.value, 1, []))
  {
    match nft
    case None => Failure(TypeErrorReadingId)
    case Some(entry) =>
      match entry.id
      case None => Failure(InvalidBigNumberValue)
      case Some(id) =>
        Success(Request(ERC_1155_CONTRACT_ADDRESS, smartAccount, encode(SafeTransferFrom(smartAccount, owner, id, 1, [])), 0))
  }

  /** The SimpleAccount page's "Send NFT to Vault" button as written: it calls
      `sendNftToVault()` with no argument. */
  function SimpleNftButtonAsWritten(smartAccount: Address, owner: Address, encode: AbiCall -> Bytes): Result<Request, Failure> {
    NftRequest(smartAccount, owner, None, encode)
  }

  /** As written, the button can never build a request, whatever the balances. */
  lemma SimpleNftButtonAlwaysFails(smartAccount: Address, owner: Address, encode: AbiCall -> Bytes)
    ensures SimpleNftButtonAsWritten(smartAccount, owner, encode) == Failure(TypeErrorReadingId)
  {
  }

  /** The button as evidently intended, and as the Safe page does it: pass the
      ERC-1155 entry of the smart account's NFT balances. */
  function SimpleNftButton(smartAccount: Address, owner: Address, balances: BalanceValue, encode: AbiCall -> Bytes): Result<Request, Failure> {
    var nft :- GetNft(balances);
    NftRequest(smartAccount, owner, nft, encode)
  }

  /** With the correction, a balance list whose first ERC-1155 entry has an id
      yields the transfer of one unit of that id from the smart account to the owner. */
  lemma SimpleNftButtonTransfersFoundNft(smartAccount: Address, owner: Address, bs: seq<BalanceEntry>, i: int, encode: AbiCall -> Bytes)
    requires IsFirst(bs, (e: BalanceEntry) => HasContractAddress(e, ERC_1155_CONTRACT_ADDRESS), i)
    requires bs[i].id.Some?
    ensures SimpleNftButton(smartAccount, owner, Entries(bs), encode)
      == Success(Request(ERC_1155_CONTRACT_ADDRESS, smartAccount, encode(SafeTransferFrom(smartAccount, owner, bs[i].id.value, 1, [])), 0))
  {
  }
}
