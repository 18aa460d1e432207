/** The ERC-4337 `UserOperation` record, the two kinds of smart account the
    core drives, and the pure pieces of its assembly: the wrapped call data,
    the draft, and the gas and fee updates. */
module UserOps {
  import opened Wrappers
  import opened Abi
  import opened Requests

  /** The entry-point `UserOperation` tuple, fields in tuple order. A gas or
      fee field the JavaScript object does not (yet) carry is `None`. */
  datatype UserOperation = UserOperation(
    sender: Address,
    nonce: nat,
    initCode: Bytes,
    callData: Bytes,
    callGasLimit: Option<nat>,
    verificationGasLimit: Option<nat>,
    preVerificationGas: Option<nat>,
    maxFeePerGas: Option<nat>,
    maxPriorityFeePerGas: Option<nat>,
    paymasterAndData: Bytes,
    signature: Bytes)

  /** The bundler's `eth_estimateUserOperationGas` reply, parsed. */
  datatype GasEstimate = GasEstimate(callGasLimit: nat, verificationGasLimit: nat, preVerificationGas: nat)

  /** The provider's fee data; either value may be null. */
  datatype FeeData = FeeData(maxFeePerGas: Option<nat>, maxPriorityFeePerGas: Option<nat>)

  /** The smart account a pipeline runs for. */
  datatype AccountKind = SafeAccount | SimpleAccount

  /** The gas added to each bundler estimate by the Safe page. */
  const SAFE_GAS_MARGIN: nat := 8000

  /** The well-known dummy signature the draft carries (65 bytes: r, s, v). */
  const PLACEHOLDER_SIGNATURE: Bytes := [
    0xae, 0xcc, 0x72, 0x63, 0x4f, 0x6c, 0x02, 0xbc, 0x10, 0xec, 0x82, 0x0d, 0x21,
    0xf6, 0xae, 0x77, 0xcf, 0xa1, 0x6f, 0x97, 0x0b, 0x9a, 0xe2, 0x17, 0x21, 0x33,
    0xc4, 0xf4, 0x45, 0xdb, 0x47, 0xe5, 0x59, 0xa3, 0x47, 0x76, 0x6e, 0x44, 0x8f,
    0x5d, 0xed, 0x21, 0xce, 0x41, 0xfc, 0x2c, 0xa9, 0x24, 0x90, 0xee, 0x32, 0xdb,
    0x75, 0xdf, 0x75, 0x08, 0x30, 0x9c, 0x65, 0x60, 0x4f, 0x4a, 0x73, 0xaf, 0x1b]

  function GasMargin(kind: AccountKind): nat {
    match kind
    case SafeAccount => SAFE_GAS_MARGIN
    case SimpleAccount => 0
  }

  /** The fee fields of the draft: absent for a Safe, `"0x0"` for a SimpleAccount. */
  function DraftFee(kind: AccountKind): Option<nat> {
    match kind
    case SafeAccount => None
    case SimpleAccount => Some(0)
  }

  /** The transaction `safeSdk.createTransaction` builds from `{to, data, value}`:
      the same three values and the default operation, a plain call. */
  datatype SafeTransaction = SafeTransaction(to: Address, value: nat, data: Bytes, operation: nat)

  function CreateSafeTransaction(req: Request): SafeTransaction {
    SafeTransaction(req.to, req.value, req.data, CALL_OPERATION)
  }

  /** The account-specific wrapper around the desired action. */
  function EncodeCallData(kind: AccountKind, encode: AbiCall -> Bytes, req: Request): Bytes {
    match kind
    case SafeAccount =>
      var tx := CreateSafeTransaction(req);
      encode(ExecuteAndRevert(tx.to, tx.value, tx.data, tx.operation))
    case SimpleAccount =>
      encode(Execute(req.to, req.value, req.data))
  }

  /** Safe call data is the manager's `executeAndRevert` of the request's own
      target, value and data, as a plain call. */
  lemma SafeCallDataIsExecuteAndRevert(encode: AbiCall -> Bytes, req: Request)
    ensures EncodeCallData(SafeAccount, encode, req)
      == encode(ExecuteAndRevert(req.to, req.value, req.data, CALL_OPERATION))
  {
  }

  /** SimpleAccount call data is `execute(to, value, data)`, in that order. */
  lemma SimpleCallDataIsExecute(encode: AbiCall -> Bytes, req: Request)
    ensures EncodeCallData(SimpleAccount, encode, req) == encode(Execute(req.to, req.value, req.data))
  {
  }

  /** Round trip: with a lossless encoder, the call data of either account
      determines the desired action's target, value and data. */
  lemma CallDataDeterminesAction(kind: AccountKind, encode: AbiCall -> Bytes, r1: Request, r2: Request)
    requires Injective(encode)
    requires EncodeCallData(kind, encode, r1) == EncodeCallData(kind, encode, r2)
    ensures r1.to == r2.to && r1.value == r2.value && r1.data == r2.data
  {
  }

  /** The operation before estimation: no gas fields, the kind's draft fees,
      empty init code and paymaster data, and the placeholder signature. */
  function DraftOp(kind: AccountKind, sender: Address, nonce: nat, callData: Bytes): UserOperation {
    UserOperation(sender, nonce, [], callData, None, None, None,
                  DraftFee(kind), DraftFee(kind), [], PLACEHOLDER_SIGNATURE)
  }

  /** All three gas limits and both fee values are present: what the hash must cover. */
  predicate Complete(op: UserOperation) {
    && op.callGasLimit.Some? && op.verificationGasLimit.Some? && op.preVerificationGas.Some?
    && op.maxFeePerGas.Some? && op.maxPriorityFeePerGas.Some?
  }

  /** The draft keeps the caller's sender, nonce and call data, deploys nothing,
      is self-funded and carries the 65-byte placeholder; it is not yet complete,
      so it may not be hashed. */
  lemma DraftShape(kind: AccountKind, sender: Address, nonce: nat, callData: Bytes)
    ensures var d := DraftOp(kind, sender, nonce, callData);
      && d.sender == sender && d.nonce == nonce && d.callData == callData
      && d.initCode == [] && d.paymasterAndData == []
      && d.signature == PLACEHOLDER_SIGNATURE && |d.signature| == 65
      && d.callGasLimit.None? && d.verificationGasLimit.None? && d.preVerificationGas.None?
      && !Complete(d)
  {
  }

  /** The draft fee fields: absent for a Safe, zero for a SimpleAccount. */
  lemma DraftFeeFields(sender: Address, nonce: nat, callData: Bytes)
    ensures var d := DraftOp(SafeAccount, sender, nonce, callData);
      d.maxFeePerGas.None? && d.maxPriorityFeePerGas.None?
    ensures var d := DraftOp(SimpleAccount, sender, nonce, callData);
      d.maxFeePerGas == Some(0) && d.maxPriorityFeePerGas == Some(0)
  {
  }

  /** The three gas limits set from the estimate plus the kind's margin. */
  function WithGasLimits(op: UserOperation, kind: AccountKind, est: GasEstimate): UserOperation {
    op.(verificationGasLimit := Some(est.verificationGasLimit + GasMargin(kind)),
        preVerificationGas := Some(est.preVerificationGas + GasMargin(kind)),
        callGasLimit := Some(est.callGasLimit + GasMargin(kind)))
  }

  /** The two fee fields set. */
  function WithFees(op: UserOperation, maxFeePerGas: nat, maxPriorityFeePerGas: nat): UserOperation {
    op.(maxFeePerGas := Some(maxFeePerGas), maxPriorityFeePerGas := Some(maxPriorityFeePerGas))
  }

  /** Setting gas limits and then fees on a draft completes it, and touches
      nothing but those five fields. */
  lemma FinalizingCompletes(d: UserOperation, kind: AccountKind, est: GasEstimate, maxFee: nat, priorityFee: nat)
    ensures var f := WithFees(WithGasLimits(d, kind, est), maxFee, priorityFee);
      && Complete(f)
      && f.(callGasLimit := d.callGasLimit, verificationGasLimit := d.verificationGasLimit,
            preVerificationGas := d.preVerificationGas, maxFeePerGas := d.maxFeePerGas,
            maxPriorityFeePerGas := d.maxPriorityFeePerGas) == d
  {
  }
}
