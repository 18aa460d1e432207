# ERC-4337 UserOperation assembly for Safe and SimpleAccount wallets

This project models the core of a wallet demo that sends calls through an
ERC-4337 smart account. The demo has two pages, one for a Safe account
(`account-abstraction/src/SafeExample.jsx`) and one for a SimpleAccount
(`account-abstraction/src/SimpleExample.jsx`). Both build an entry-point
`UserOperation` (the struct in the Specification section of ERC-4337) and send
it to a bundler. The model runs both through one pipeline, parameterised by
`AccountKind`. The kind decides three things:

- the call-data wrapper: Safe `executeAndRevert(to, value, data, CALL)` or SimpleAccount `execute(to, value, data)`;
- the gas margin: 8000 or 0;
- the draft fee fields: absent, or `"0x0"`.

`signUserOp` mutates its `userOp` object field by field. It is modelled as the
class `Pipeline.UserOpObject`. Its methods can only run in the source's order:
draft, then gas limits, then fees, then hash, then signature. A ghost phase
enforces this, and the class invariant `Valid()` ties each phase to the fields
it has set. Its hash step accepts only a complete operation that still carries
the placeholder signature. The method `Pipeline.SignUserOp` drives the object
and is proved equal to the pure function `Pipeline.SignedOp`. The lemmas state
the source's promises about `SignedOp`:

- what the draft was;
- that each gas limit is the estimate of that draft plus the margin;
- that the fees are the provider's fee data;
- that the hashed operation is complete;
- that signing changed nothing but `signature`;
- which stage's error a failure carries.

External services are function-valued fields of `Pipeline.Services`:
`encodeFunctionData`, `getNonce`, `getFeeData`,
`eth_estimateUserOperationGas`, `getUserOpHash`, `signMessage` and
`eth_sendUserOperation`. The bundler methods are those of the RPC methods (eth
namespace) section of ERC-4337. Each service except `encodeFunctionData` answers
either with a value or with the reason it rejected; the encoder is a total
function, so a failing encoding is not modelled. ABI encoding is symbolic: the encoder receives an
`Abi.AbiCall` term that holds the function and its arguments in declaration
order. Quantities are unbounded `nat`; the margin is added without wrap-around,
as `BigNumber` does. Byte strings are `seq<bv8>`, with `"0x"` as the empty
sequence. The hex spelling of quantities is abstract, so `"0x0"` is 0.

The pure helpers are modelled as functions:

- the bundler-reply classifier (`Submission.Classify`, on a JavaScript value with JavaScript truthiness);
- the balance lookups (a recursive `Find` that mirrors `Array.prototype.find`, on a value that is nullish, an array, or an object without `find`);
- the deployed-code test on a `getCode` reply;
- the `{to, from, data, value}` request builders of the two "send to vault" buttons.

The model follows the code:

- initCode is always `"0x"`: no deploy-on-first-use branch exists.
- The gas margin is applied inside `signUserOp`.
- Submission errors are a thrown `Error(message)` or a bare thrown string, not tagged error types.
- The account address is computed at sign-in (`connect`), outside the core. Here it is a parameter.

## Model

| member | source | states |
|---|---|---|
| Balances.Find | account-abstraction/src/SafeExample.jsx:546-557 | `find` yields an element exactly when one satisfies the predicate, and then it is the first such element |
| Balances.GetMaticBalance | account-abstraction/src/SafeExample.jsx:546-551 | the lookup throws (`find` is not a function) exactly when handed an object rather than an array or nullish value |
| Balances.GetBalanceForContractAddress | account-abstraction/src/SafeExample.jsx:553-557 | the lookup throws exactly when handed an object rather than an array or nullish value |
| Balances.MaticBalanceOfFirstNative | account-abstraction/src/SafeExample.jsx:546-551 | the MATIC balance shown is the `balance` of the first entry whose tokenStandard is "NATIVE", or 0 if that entry has none |
| Balances.MaticBalanceWithoutNative | account-abstraction/src/SimpleExample.jsx:514-519 | with a nullish balance value, or an array without a NATIVE entry, the balance shown is 0 |
| Balances.BalanceForContractAddressIsFirstMatch | account-abstraction/src/SimpleExample.jsx:521-525 | on an array the lookup returns the first entry whose contractAddress equals the given address exactly, and nothing iff there is no such entry; on a nullish value it returns nothing |
| Balances.GetNft | account-abstraction/src/SafeExample.jsx:538-540 | a found NFT entry belongs to the ERC-1155 contract |
| Balances.GetErc20 | account-abstraction/src/SimpleExample.jsx:510-512 | a found token entry belongs to the ERC-20 contract |
| Balances.MissingReplyBalancesBreakLookups | account-abstraction/src/SafeExample.jsx:484-486 | as written, a balance reply without `balances` stores the `defaultBalance` object, and every later lookup on it throws |
| Balances.StoredBalancesAreLookedUp | account-abstraction/src/SimpleExample.jsx:450-453 | with the fallback `defaultBalance.balances`, no lookup on a stored value throws, and a reply without `balances` shows the default native balance "0" |
| Balances.IsDeployedIffBytecode | account-abstraction/src/SafeExample.jsx:602-609 | a `getCode` reply `"0x" + body` counts as deployed iff body is non-empty; `"0x"` is not deployed |
| Requests.TokenRequestShape | account-abstraction/src/SimpleExample.jsx:798-810 | the ERC-20 request targets the token contract from the smart account with value 0 and data `transfer(owner, 10^16)`; with a lossless encoder the data determines the recipient |
| Requests.NftRequest | account-abstraction/src/SimpleExample.jsx:748-770 | the NFT request targets the ERC-1155 contract with value 0 and data `safeTransferFrom(smartAccount, owner, nft.id, 1, "0x")`; an entry with an id always yields that request; a missing entry is a TypeError and a missing id an encoding error |
| Requests.SimpleNftButtonAlwaysFails | account-abstraction/src/SimpleExample.jsx:914-918 | as written, the SimpleAccount NFT button never builds a request: it always ends in the TypeError of reading `.id` of undefined |
| Requests.SimpleNftButtonTransfersFoundNft | account-abstraction/src/SafeExample.jsx:952-955 | passing the ERC-1155 balance entry, as the Safe page does, yields the transfer of one unit of that entry's id |
| UserOps.SafeCallDataIsExecuteAndRevert | account-abstraction/src/SafeExample.jsx:678-695 | Safe call data is the manager's `executeAndRevert` of the request's to, value and data, with operation CALL |
| UserOps.SimpleCallDataIsExecute | account-abstraction/src/SimpleExample.jsx:622-626 | SimpleAccount call data is `execute(request.to, request.value, request.data)`, in that order |
| UserOps.CallDataDeterminesAction | account-abstraction/src/SafeExample.jsx:688-695 | round trip: with a lossless encoder, equal call data means equal target, value and data, for both kinds |
| UserOps.DraftShape | account-abstraction/src/SafeExample.jsx:707-718 | the draft has the given sender, nonce and call data, initCode and paymasterAndData `"0x"`, the 65-byte placeholder signature, no gas fields, and is not complete |
| UserOps.DraftFeeFields | account-abstraction/src/SimpleExample.jsx:635-648 | the Safe draft has no fee fields; the SimpleAccount draft has both fees `"0x0"` |
| UserOps.FinalizingCompletes | account-abstraction/src/SafeExample.jsx:722-733 | setting the gas limits and then the fees completes the operation and changes no other field |
| Pipeline.UserOpObject.Draft | account-abstraction/src/SafeExample.jsx:707-718 | the object literal holds the draft and is in its first phase |
| Pipeline.UserOpObject.SetGasLimits | account-abstraction/src/SafeExample.jsx:722-730 | only in the draft phase: the three gas limits become estimate plus margin, nothing else changes |
| Pipeline.UserOpObject.SetFees | account-abstraction/src/SafeExample.jsx:732-733 | only after the gas limits: both fee fields are set, nothing else changes |
| Pipeline.UserOpObject.ComputeHash | account-abstraction/src/SafeExample.jsx:735 | only after gas and fees, on a complete operation with the placeholder signature; records what was hashed |
| Pipeline.UserOpObject.Sign | account-abstraction/src/SimpleExample.jsx:679-687 | only after hashing: the new operation is the old one with `signature` replaced; it still equals the hashed one except for `signature` |
| Pipeline.SignUserOp | account-abstraction/src/SafeExample.jsx:624-742 | the step-by-step mutation of the object produces exactly `SignedOp`, including every failure |
| Pipeline.SignedOpDraftFields | account-abstraction/src/SafeExample.jsx:697-718 | the signed operation's sender is the account, its nonce is the entry point's `getNonce(account, 0)`, its call data the kind's wrapper, initCode and paymasterAndData empty |
| Pipeline.SignedOpGasLimits | account-abstraction/src/SafeExample.jsx:720-730 | each gas limit is the bundler's estimate, for the draft, plus the kind's margin |
| Pipeline.SafeGasLimitsCarryMargin | account-abstraction/src/SafeExample.jsx:722-730 | Safe: each of the three gas limits is the estimate plus exactly 8000 |
| Pipeline.SimpleGasLimitsVerbatim | account-abstraction/src/SimpleExample.jsx:650-654 | SimpleAccount: the three gas limits are the estimates verbatim |
| Pipeline.SignedOpFees | account-abstraction/src/SafeExample.jsx:704-733 | both fee fields equal the fee data fetched before the draft was built and are present |
| Pipeline.HashedOpIsCompleteAndUnsigned | account-abstraction/src/SimpleExample.jsx:650-659 | the operation handed to `getUserOpHash` holds all three gas limits and both fees and still the placeholder signature |
| Pipeline.SigningReplacesOnlySignature | account-abstraction/src/SafeExample.jsx:735-741 | the returned operation is the hashed one with only `signature` replaced, by the owner's signature over that hash; it is complete |
| Pipeline.FailuresAreTaggedWithStage | account-abstraction/src/SafeExample.jsx:697-739 | a rejected nonce, fee-data, estimate, hash or sign call ends the assembly with that stage's error; a null `maxFeePerGas`, or a present one with a null `maxPriorityFeePerGas`, fails in `hexlify` |
| Pipeline.SignedOpSucceedsIff | account-abstraction/src/SimpleExample.jsx:622-681 | assembly succeeds iff every service it calls answers and both fee values are present |
| Pipeline.SendUserOp | account-abstraction/src/SimpleExample.jsx:690-707 | a rejected send is a send-stage error; otherwise the reply is classified, and a returned value is the bundler's reply itself and truthy |
| Pipeline.Request | account-abstraction/src/SimpleExample.jsx:709-714 | sign, then send: if signing fails nothing is submitted and its error is returned; otherwise exactly the signed operation is submitted and the classified reply returned |
| Pipeline.InsufficientFundsFailsRequest | account-abstraction/src/SafeExample.jsx:752-753 | a signed operation answered with `{error: {message: "insufficient funds"}}` fails with that message |
| Submission.Classify | account-abstraction/src/SafeExample.jsx:752-758 | a truthy `error.message` is thrown; any other truthy reply is returned unchanged; a falsy reply throws "Something went wrong. Please try again." |
| Submission.ClassifyInsufficientFunds | account-abstraction/src/SimpleExample.jsx:700-701 | `{error: {message: "insufficient funds"}}` throws "insufficient funds" |
| Submission.ErrorWithoutMessageIsReturned | account-abstraction/src/SimpleExample.jsx:700-703 | a reply with an `error` object but no truthy message is returned unchanged |
| Submission.FalsyRepliesThrowGenericText | account-abstraction/src/SimpleExample.jsx:704-706 | undefined, null, false, 0 and "" all throw the generic text |
| Submission.UserOpHashReplyIsReturned | account-abstraction/src/SimpleExample.jsx:702-703 | a non-empty hash string reply is returned as it is |

## Findings

| source | as written | input that shows it | evidently intended | confidence | as-written member | corrected member |
|---|---|---|---|---|---|---|
| account-abstraction/src/SimpleExample.jsx:917 | the "Send NFT to Vault" button calls `sendNftToVault()` with no argument, so `balance.id` (line 752) reads a property of undefined | any click of the button, whatever the balances | pass `getNft(simpleAccountNftBalance)`, as the Safe page does at SafeExample.jsx:955 | not executed | Requests.SimpleNftButtonAsWritten, Requests.SimpleNftButtonAlwaysFails | Requests.SimpleNftButton, Requests.SimpleNftButtonTransfersFoundNft |
| account-abstraction/src/SafeExample.jsx:484-486 | a balance reply without `balances` stores `defaultBalance`, the object `{balances: [...]}`, where the lookups expect an array; the same code is at SafeExample.jsx:529-531 and SimpleExample.jsx:451-453, 497-499 | a reply whose JSON has no `balances` property | store `defaultBalance.balances`, the array of one zero NATIVE entry | not executed | Balances.StoredBalancesAsWritten, Balances.MissingReplyBalancesBreakLookups | Balances.StoredBalances, Balances.StoredBalancesAreLookedUp |

## Left out

- React state, hooks, rendering and `App.jsx` routing: UI glue with no logic.
- Bitski sign-in, `connect`/`disconnect`, `getAccounts`, `getProvider`, and the factory `getAddress` call in `connect`: session plumbing. The smart-account address is a parameter.
- `getCurrencyBalances` and `getNftBalances`: `fetch` I/O and React state. Only the value they store is modelled (`StoredBalancesAsWritten`). The balance value is a parameter of the lookups. The `setAccountBalance` calls in their signed-out branch name setters that do not exist, and are not modelled.
- ABI encoding, keccak inside `getUserOpHash`, `signMessage`, `BigNumber` and `hexlify` are foreign library code. They appear as opaque service functions. Only `hexlify`'s rejection of a null fee value is modelled.
- Deploy-on-first-use initCode: the code never builds it (initCode is hard-coded `"0x"`, `createAccount` is commented out).
- Safe `opsTransaction.wait()`: the awaited value is what `sendUserOperation` returns. The wait itself is not modelled. The provider's `send` resolves to the raw RPC result. For this method that is the operation hash, a string, and a string has no `wait` method, so the Safe page may throw here after submitting. The model does not show this.
- A rejected call-data encoding: `encodeFunctionData` and `populateTransaction.executeAndRevert` (SafeExample.jsx:688-695, SimpleExample.jsx:622-626) are a total function here. An invalid address or malformed data that makes them throw is not modelled.
- `Safe.create` and `safeSdk.createTransaction` as network calls: only the transaction they build is modelled (the request's to, value and data, with operation CALL). A failure there is not modelled.
- A bundler estimate that lacks one of the three gas fields is not modelled. Safe would throw in `BigNumber.from`; SimpleAccount would copy `undefined`.
- `uint256` bounds: gas limits plus margin are unbounded. An out-of-range value would be rejected by the encoder inside `getUserOpHash`, which the service may model as a rejection.
- Async and promise semantics: the un-awaited `request(...)` calls in the click handlers, and the un-awaited `isDeployed` promise in JSX, which is always truthy.
- The try/catch with `alert` around `request` in the SimpleAccount `sendTokenToVault`: UI reporting.
- The commented-out paymaster calls and the post-sign gas overrides: dead code.
- JavaScript numbers: NaN and fractions are not modelled. Numbers are integers.
- `vite.config.js`: build configuration.
