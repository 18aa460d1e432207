/** Balance lookups over the balance list the wallet's balance service returns,
    and the deployed-code test on the reply of `getCode`. */
module Balances {
  import opened Wrappers
  import opened Abi
  import opened Errors

  const ERC_20_CONTRACT_ADDRESS: Address := "0xfe4F5145f6e09952a5ba9e956ED0C25e3Fa4c7F1"
  const ERC_1155_CONTRACT_ADDRESS: Address := "0xA07e45A987F19E25176c877d98388878622623FA"

  /** One entry of a balance list; a property absent from the JSON is `None`. */
  datatype BalanceEntry = BalanceEntry(
    balance: Option<string>,
    contractAddress: Option<string>,
    tokenStandard: Option<string>,
    id: Option<nat>)

  /** `i` is the index of the first element of `s` that satisfies `p`. */
  ghost predicate IsFirst<T>(s: seq<T>, p: T -> bool, i: int) {
    0 <= i < |s| && p(s[i]) && forall j :: 0 <= j < i ==> !p(s[j])
  }

  /** The index `Array.prototype.find` stops at, if any. */
  function FirstIndex<T>(s: seq<T>, p: T -> bool): (r: Option<nat>)
    ensures r.Some? ==> IsFirst(s, p, r.value)
    ensures r.None? ==> forall j :: 0 <= j < |s| ==> !p(s[j])
  {
    if s == [] then None
    else if p(s[0]) then Some(0)
    else match FirstIndex(s[1..], p)
      case None => None
      case Some(k) => Some(k + 1)
  }

  /** `s.find(p)`: the first element that satisfies `p`, or nothing. */
  function Find<T>(s: seq<T>, p: T -> bool): (r: Option<T>)
    ensures r.None? <==> forall j :: 0 <= j < |s| ==> !p(s[j])
    ensures r.Some? ==> exists i :: IsFirst(s, p, i) && s[i] == r.value
  {
    match FirstIndex(s, p)
    case None => None
    case Some(i) => Some(s[i])
  }

  predicate IsNative(e: BalanceEntry) {
    e.tokenStandard == Some("NATIVE")
  }

  predicate HasContractAddress(e: BalanceEntry, tokenAddress: Address) {
    e.contractAddress == Some(tokenAddress)
  }

  /** What a balance state variable holds when a lookup reads it: nothing yet
      (`null`), the `balances` array of the service's reply, or an object that
      wraps such an array under `balances` (the `defaultBalance` fallback). */
  datatype BalanceValue =
    | Nullish
    | Entries(entries: seq<BalanceEntry>)
    | BalancesObject(balances: seq<BalanceEntry>)

  /** The single entry of the `defaultBalance` fallback: zero of the native token. */
  const DEFAULT_ENTRIES: seq<BalanceEntry> :=
    [BalanceEntry(Some("0"), Some("0xeeeeeeeeeeeeeeeeeeeeeeeeeeeeeeeeeeeeeeee"), Some("NATIVE"), None)]

  /** What `getMaticBalance` shows: the entry's balance text, or the number 0. */
  datatype MaticBalance = BalanceText(text: string) | DefaultZero

  /** `balances?.find(native)?.balance ?? 0`; an object has no `find` method. */
  function GetMaticBalance(balances: BalanceValue): (r: Result<MaticBalance, Failure>)
    ensures r.Failure? <==> balances.BalancesObject?
    ensures r.Failure? ==> r.error == FindIsNotAFunction
  {
    match balances
    case Nullish => Success(DefaultZero)
    case BalancesObject(_) => Failure(FindIsNotAFunction)
    case Entries(bs) =>
      var found := Find(bs, IsNative);
      if found.Some? && found.value.balance.Some? then Success(BalanceText(found.value.balance.value))
      else Success(DefaultZero)
  }

  /** The shown balance is that of the first native entry (0 if that entry has
      no balance property). */
  lemma MaticBalanceOfFirstNative(bs: seq<BalanceEntry>, i: int)
    requires IsFirst(bs, IsNative, i)
    ensures bs[i].balance.Some? ==> GetMaticBalance(Entries(bs)) == Success(BalanceText(bs[i].balance.value))
    ensures bs[i].balance.None? ==> GetMaticBalance(Entries(bs)) == Success(DefaultZero)
  {
  }

  /** Without a list, or without a native entry in it, the balance shown is 0. */
  lemma MaticBalanceWithoutNative(balances: BalanceValue)
    requires !balances.BalancesObject?
    requires balances.Entries? ==> forall j :: 0 <= j < |balances.entries| ==> !IsNative(balances.entries[j])
    ensures GetMaticBalance(balances) == Success(DefaultZero)
  {
  }

  /** `balances?.find(({contractAddress}) => contractAddress === tokenAddress)` */
  function GetBalanceForContractAddress(balances: BalanceValue, tokenAddress: Address): (r: Result<Option<BalanceEntry>, Failure>)
    ensures r.Failure? <==> balances.BalancesObject?
    ensures r.Failure? ==> r.error == FindIsNotAFunction
  {
    match balances
    case Nullish => Success(None)
    case BalancesObject(_) => Failure(FindIsNotAFunction)
    case Entries(bs) => Success(Find(bs, (e: BalanceEntry) => HasContractAddress(e, tokenAddress)))
  }

  /** On an array the lookup yields exactly the first entry whose address equals
      the given one (compared as strings, so case-sensitively), and nothing if
      there is none; on `null` it yields nothing. */
  lemma BalanceForContractAddressIsFirstMatch(balances: BalanceValue, tokenAddress: Address)
    ensures balances.Nullish? ==> GetBalanceForContractAddress(balances, tokenAddress) == Success(None)
    ensures balances.Entries? ==>
      var bs := balances.entries;
      var r := GetBalanceForContractAddress(balances, tokenAddress);
      && r.Success?
      && (r.value.None? <==> forall j :: 0 <= j < |bs| ==> !HasContractAddress(bs[j], tokenAddress))
      && (r.value.Some? ==> exists i ::
            0 <= i < |bs| && bs[i] == r.value.value
            && HasContractAddress(bs[i], tokenAddress)
            && forall j :: 0 <= j < i ==> !HasContractAddress(bs[j], tokenAddress))
  {
  }

  /** `getNft`: the ERC-1155 entry. */
  function GetNft(balances: BalanceValue): (r: Result<Option<BalanceEntry>, Failure>)
    ensures r.Failure? <==> balances.BalancesObject?
    ensures r.Success? && r.value.Some? ==> r.value.value.contractAddress == Some(ERC_1155_CONTRACT_ADDRESS)
  {
    GetBalanceForContractAddress(balances, ERC_1155_CONTRACT_ADDRESS)
  }

  /** `getErc20`: the ERC-20 entry. */
  function GetErc20(balances: BalanceValue): (r: Result<Option<BalanceEntry>, Failure>)
    ensures r.Failure? <==> balances.BalancesObject?
    ensures r.Success? && r.value.Some? ==> r.value.value.contractAddress == Some(ERC_20_CONTRACT_ADDRESS)
  {
    GetBalanceForContractAddress(balances, ERC_20_CONTRACT_ADDRESS)
  }

  /** What `getCurrencyBalances` and `getNftBalances` store, as written:
      `data.balances ?? defaultBalance`, where `defaultBalance` is the object
      `{balances: [...]}`, not the array inside it. */
  function StoredBalancesAsWritten(replyBalances: Option<seq<BalanceEntry>>): BalanceValue {
    match replyBalances
    case Some(bs) => Entries(bs)
    case None => BalancesObject(DEFAULT_ENTRIES)
  }

  /** As written, a reply without `balances` makes every later lookup throw. */
  lemma MissingReplyBalancesBreakLookups(tokenAddress: Address)
    ensures GetMaticBalance(StoredBalancesAsWritten(None)) == Failure(FindIsNotAFunction)
    ensures GetBalanceForContractAddress(StoredBalancesAsWritten(None), tokenAddress) == Failure(FindIsNotAFunction)
  {
  }

  /** The fallback as evidently intended: `data.balances ?? defaultBalance.balances`. */
  function StoredBalances(replyBalances: Option<seq<BalanceEntry>>): BalanceValue {
    match replyBalances
    case Some(bs) => Entries(bs)
    case None => Entries(DEFAULT_ENTRIES)
  }

  /** With the corrected fallback, no lookup on a stored value throws, and a
      reply without `balances` shows the default native balance "0". */
  lemma StoredBalancesAreLookedUp(replyBalances: Option<seq<BalanceEntry>>, tokenAddress: Address)
    ensures GetMaticBalance(StoredBalances(replyBalances)).Success?
    ensures GetBalanceForContractAddress(StoredBalances(replyBalances), tokenAddress).Success?
    ensures GetMaticBalance(StoredBalances(None)) == Success(BalanceText("0"))
  {
  }

  /** `code.length > 2` on the hex string `getCode` returns. */
  predicate IsDeployed(code: string) {
    |code| > 2
  }

  /** For a hex reply `"0x" + body`, the account counts as deployed exactly
      when there is bytecode after the prefix; the empty reply `"0x"` is not. */
  lemma IsDeployedIffBytecode(body: string)
    ensures IsDeployed("0x" + body) <==> body != ""
    ensures !IsDeployed("0x")
  {
  }
}
