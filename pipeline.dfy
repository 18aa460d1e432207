/** The assembly of a `UserOperation` (the source's `signUserOp`), its
    submission (`sendUserOp`) and the request facade (`request`), for both
    kinds of account. Every external service is a field of `Services`. */
module Pipeline {
  import opened Wrappers
  import opened JsValues
  import opened Abi
  import opened Errors
  import opened Requests
  import opened UserOps
  import opened Submission

  /** The external services, as the values their awaited calls produce. */
  datatype Services = Services(
    /** ABI `encodeFunctionData` */
    encode: AbiCall -> Bytes,
    /** entry point `getNonce(sender, key)` */
    getNonce: (Address, nat) -> Result<nat, string>,
    /** provider `getFeeData()` */
    feeData: Result<FeeData, string>,
    /** bundler `eth_estimateUserOperationGas(op, entryPoint)` */
    estimateGas: UserOperation -> Result<GasEstimate, string>,
    /** entry point `getUserOpHash(op)` */
    getUserOpHash: UserOperation -> Result<Bytes, string>,
    /** owner `signMessage(hashBytes)` */
    signMessage: Bytes -> Result<Bytes, string>,
    /** bundler `eth_sendUserOperation(op, entryPoint)`, awaited to its final reply */
    sendUserOperation: UserOperation -> Result<Js, string>)

  /** `hexlify` of a fee value: a null value is rejected. */
  function HexlifyFee(v: Option<nat>): Result<nat, Failure> {
    match v
    case Some(n) => Success(n)
    case None => Failure(InvalidHexlifyValue)
  }

  /** The steps an operation object goes through. */
  datatype Phase = Drafted | GasEstimated | FeesSet | Hashed | Signed

  /** The mutable `userOp` object `signUserOp` builds and updates field by
      field. Its methods are guarded by the phase, so the fields are set in the
      source's order and the hash is only taken of a complete operation. */
  class UserOpObject {
    var sender: Address
    var nonce: nat
    var initCode: Bytes
    var callData: Bytes
    var callGasLimit: Option<nat>
    var verificationGasLimit: Option<nat>
    var preVerificationGas: Option<nat>
    var maxFeePerGas: Option<nat>
    var maxPriorityFeePerGas: Option<nat>
    var paymasterAndData: Bytes
    var signature: Bytes

    /** where the object stands in the assembly */
    ghost var phase: Phase
    /** the operation `getUserOpHash` was applied to, once it has been */
    ghost var hashed: Option<UserOperation>

    /** The record the object currently holds. */
    function Value(): UserOperation
      reads this
    {
      UserOperation(sender, nonce, initCode, callData, callGasLimit, verificationGasLimit,
                    preVerificationGas, maxFeePerGas, maxPriorityFeePerGas, paymasterAndData, signature)
    }

    ghost predicate Valid()
      reads this
    {
      && (phase == Drafted ==> callGasLimit.None? && verificationGasLimit.None? && preVerificationGas.None?)
      && (phase != Drafted ==> callGasLimit.Some? && verificationGasLimit.Some? && preVerificationGas.Some?)
      && (phase in {FeesSet, Hashed, Signed} ==> Complete(Value()))
      && (phase != Signed ==> signature == PLACEHOLDER_SIGNATURE)
      && (hashed.Some? <==> phase in {Hashed, Signed})
      && (hashed.Some? ==> hashed.value == Value().(signature := PLACEHOLDER_SIGNATURE))
    }

    /** The object literal of step one: the draft. */
    constructor Draft(kind: AccountKind, sender: Address, nonce: nat, callData: Bytes)
      ensures Valid() && phase == Drafted
      ensures Value() == DraftOp(kind, sender, nonce, callData)
    {
      this.sender := sender;
      this.nonce := nonce;
      this.initCode := [];
      this.callData := callData;
      this.callGasLimit := None;
      this.verificationGasLimit := None;
      this.preVerificationGas := None;
      this.maxFeePerGas := DraftFee(kind);
      this.maxPriorityFeePerGas := DraftFee(kind);
      this.paymasterAndData := [];
      this.signature := PLACEHOLDER_SIGNATURE;
      this.phase := Drafted;
      this.hashed := None;
    }

    /** Overwrites the three gas limits with the estimate plus the margin. */
    method SetGasLimits(kind: AccountKind, est: GasEstimate)
      requires Valid() && phase == Drafted
      modifies this
      ensures Valid() && phase == GasEstimated
      ensures Value() == WithGasLimits(old(Value()), kind, est)
    {
      verificationGasLimit := Some(est.verificationGasLimit + GasMargin(kind));
      preVerificationGas := Some(est.preVerificationGas + GasMargin(kind));
      callGasLimit := Some(est.callGasLimit + GasMargin(kind));
      phase := GasEstimated;
    }

    /** Overwrites the two fee fields. */
    method SetFees(maxFee: nat, priorityFee: nat)
      requires Valid() && phase == GasEstimated
      modifies this
      ensures Valid() && phase == FeesSet
      ensures Value() == WithFees(old(Value()), maxFee, priorityFee)
    {
      maxFeePerGas := Some(maxFee);
      maxPriorityFeePerGas := Some(priorityFee);
      phase := FeesSet;
    }

    /** `await EntrypointContract.getUserOpHash(userOp)`: only a complete
        operation that still carries the placeholder can be hashed. */
    method ComputeHash(getUserOpHash: UserOperation -> Result<Bytes, string>) returns (h: Result<Bytes, string>)
      requires Valid() && phase == FeesSet
      modifies this
      ensures Valid() && Value() == old(Value())
      ensures h == getUserOpHash(Value())
      ensures h.Success? ==> phase == Hashed && hashed == Some(Value())
      ensures h.Failure? ==> phase == FeesSet
    {
      h := getUserOpHash(Value());
      if h.Success? {
        phase := Hashed;
        hashed := Some(Value());
      }
    }

    /** `userOp.signature = ...`: the last write; nothing else changes. */
    method Sign(sig: Bytes)
      requires Valid() && phase == Hashed
      modifies this
      ensures Valid() && phase == Signed && hashed == old(hashed)
      ensures Value() == old(Value()).(signature := sig)
    {
      signature := sig;
      phase := Signed;
    }
  }

  /** Steps one to three, as values: the operation that is handed to
      `getUserOpHash`. */
  function UnsignedOp(kind: AccountKind, account: Address, svc: Services, req: Request): Result<UserOperation, Failure> {
    var callData := EncodeCallData(kind, svc.encode, req);
    var nonce :- Tag(NonceStage, svc.getNonce(account, 0));
    var fees :- Tag(FeeDataStage, svc.feeData);
    var draft := DraftOp(kind, account, nonce, callData);
    var est :- Tag(EstimateStage, svc.estimateGas(draft));
    var maxFee :- HexlifyFee(fees.maxFeePerGas);
    var priorityFee :- HexlifyFee(fees.maxPriorityFeePerGas);
    Success(WithFees(WithGasLimits(draft, kind, est), maxFee, priorityFee))
  }

  /** The whole of `signUserOp`, as values. */
  function SignedOp(kind: AccountKind, account: Address, svc: Services, req: Request): Result<UserOperation, Failure> {
    var unsigned :- UnsignedOp(kind, account, svc, req);
    var hash :- Tag(HashStage, svc.getUserOpHash(unsigned));
    var sig :- Tag(SignStage, svc.signMessage(hash));
    Success(unsigned.(signature := sig))
  }

  /** `signUserOp(request)` for the smart account `account`. */
  method SignUserOp(kind: AccountKind, account: Address, svc: Services, req: Request) returns (r: Result<UserOperation, Failure>)
    ensures r == SignedOp(kind, account, svc, req)
  {
    var callData := EncodeCallData(kind, svc.encode, req);
    var nonce :- Tag(NonceStage, svc.getNonce(account, 0));
    var fees :- Tag(FeeDataStage, svc.feeData);
    var userOp := new UserOpObject.Draft(kind, account, nonce, callData);
    var est :- Tag(EstimateStage, svc.estimateGas(userOp.Value()));
    userOp.SetGasLimits(kind, est);
    var maxFee :- HexlifyFee(fees.maxFeePerGas);
    var priorityFee :- HexlifyFee(fees.maxPriorityFeePerGas);
    userOp.SetFees(maxFee, priorityFee);
    var hash := userOp.ComputeHash(svc.getUserOpHash);
    var hashValue :- Tag(HashStage, hash);
    var sig :- Tag(SignStage, svc.signMessage(hashValue));
    userOp.Sign(sig);
    r := Success(userOp.Value());
  }

  /** `sendUserOp(op)`: the bundler's reply, classified. */
  function SendUserOp(svc: Services, op: UserOperation): (r: Result<Js, Failure>)
    ensures svc.sendUserOperation(op).Failure? ==> r == Failure(Rejected(SendStage, svc.sendUserOperation(op).error))
    ensures svc.sendUserOperation(op).Success? ==> r == Classify(svc.sendUserOperation(op).value)
    ensures r.Success? ==> svc.sendUserOperation(op) == Success(r.value) && Truthy(r.value)
  {
    var reply :- Tag(SendStage, svc.sendUserOperation(op));
    Classify(reply)
  }

  /** `request(request)`: sign, then send. `submitted` is the operation handed
      to the bundler, if any was. */
  method Request(kind: AccountKind, account: Address, svc: Services, req: Request) returns (r: Result<Js, Failure>, submitted: Option<UserOperation>)
    ensures var signed := SignedOp(kind, account, svc, req);
      && (signed.Failure? ==> submitted == None && r == Failure(signed.error))
      && (signed.Success? ==> submitted == Some(signed.value) && r == SendUserOp(svc, signed.value))
  {
    var signed := SignUserOp(kind, account, svc, req);
    if signed.Failure? {
      return Failure(signed.error), None;
    }
    submitted := Some(signed.value);
    r := SendUserOp(svc, signed.value);
  }

  /** The operation is the kind's draft for this account: its sender, the entry
      point's nonce for key 0, the wrapped call data, no init code and no
      paymaster. */
  lemma SignedOpDraftFields(kind: AccountKind, account: Address, svc: Services, req: Request)
    requires SignedOp(kind, account, svc, req).Success?
    ensures var op := SignedOp(kind, account, svc, req).value;
      && op.sender == account
      && svc.getNonce(account, 0) == Success(op.nonce)
      && op.callData == EncodeCallData(kind, svc.encode, req)
      && op.initCode == [] && op.paymasterAndData == []
  {
  }

  /** Each gas limit is the bundler's estimate for the draft plus the kind's
      margin, in unbounded arithmetic. */
  lemma SignedOpGasLimits(kind: AccountKind, account: Address, svc: Services, req: Request)
    requires SignedOp(kind, account, svc, req).Success?
    ensures var op := SignedOp(kind, account, svc, req).value;
      var est := svc.estimateGas(DraftOp(kind, account, op.nonce, EncodeCallData(kind, svc.encode, req)));
      && est.Success?
      && op.callGasLimit == Some(est.value.callGasLimit + GasMargin(kind))
      && op.verificationGasLimit == Some(est.value.verificationGasLimit + GasMargin(kind))
      && op.preVerificationGas == Some(est.value.preVerificationGas + GasMargin(kind))
  {
  }

  /** The Safe page adds exactly 8000 to every estimate. */
  lemma SafeGasLimitsCarryMargin(account: Address, svc: Services, req: Request)
    requires SignedOp(SafeAccount, account, svc, req).Success?
    ensures var op := SignedOp(SafeAccount, account, svc, req).value;
      var est := svc.estimateGas(DraftOp(SafeAccount, account, op.nonce, op.callData)).value;
      && op.callGasLimit == Some(est.callGasLimit + 8000)
      && op.verificationGasLimit == Some(est.verificationGasLimit + 8000)
      && op.preVerificationGas == Some(est.preVerificationGas + 8000)
  {
  }

  /** The SimpleAccount page copies the estimates verbatim. */
  lemma SimpleGasLimitsVerbatim(account: Address, svc: Services, req: Request)
    requires SignedOp(SimpleAccount, account, svc, req).Success?
    ensures var op := SignedOp(SimpleAccount, account, svc, req).value;
      var est := svc.estimateGas(DraftOp(SimpleAccount, account, op.nonce, op.callData)).value;
      && op.callGasLimit == Some(est.callGasLimit)
      && op.verificationGasLimit == Some(est.verificationGasLimit)
      && op.preVerificationGas == Some(est.preVerificationGas)
  {
  }

  /** Both fee fields are the provider's fee data, fetched before the draft. */
  lemma SignedOpFees(kind: AccountKind, account: Address, svc: Services, req: Request)
    requires SignedOp(kind, account, svc, req).Success?
    ensures var op := SignedOp(kind, account, svc, req).value;
      && svc.feeData.Success?
      && op.maxFeePerGas == svc.feeData.value.maxFeePerGas && op.maxFeePerGas.Some?
      && op.maxPriorityFeePerGas == svc.feeData.value.maxPriorityFeePerGas && op.maxPriorityFeePerGas.Some?
  {
  }

  /** Ordering: the operation that is hashed already holds all three gas limits
      and both fees, and still carries the placeholder signature. */
  lemma HashedOpIsCompleteAndUnsigned(kind: AccountKind, account: Address, svc: Services, req: Request)
    requires UnsignedOp(kind, account, svc, req).Success?
    ensures Complete(UnsignedOp(kind, account, svc, req).value)
    ensures UnsignedOp(kind, account, svc, req).value.signature == PLACEHOLDER_SIGNATURE
  {
  }

  /** Signing replaces only `signature`: the returned operation is the hashed
      one with the owner's signature over that hash, so the hash covers the
      returned gas and fee values. */
  lemma SigningReplacesOnlySignature(kind: AccountKind, account: Address, svc: Services, req: Request)
    requires SignedOp(kind, account, svc, req).Success?
    ensures var op := SignedOp(kind, account, svc, req).value;
      var hashed := op.(signature := PLACEHOLDER_SIGNATURE);
      && UnsignedOp(kind, account, svc, req) == Success(hashed)
      && Complete(op)
      && svc.getUserOpHash(hashed).Success?
      && svc.signMessage(svc.getUserOpHash(hashed).value) == Success(op.signature)
  {
  }

  /** A failing step ends the assembly with that step's error; nothing later runs. */
  lemma FailuresAreTaggedWithStage(kind: AccountKind, account: Address, svc: Services, req: Request)
    ensures var r := SignedOp(kind, account, svc, req);
      var nonce := svc.getNonce(account, 0);
      && (nonce.Failure? ==> r == Failure(Rejected(NonceStage, nonce.error)))
      && (nonce.Success? && svc.feeData.Failure? ==> r == Failure(Rejected(FeeDataStage, svc.feeData.error)))
    ensures var r := SignedOp(kind, account, svc, req);
      var nonce := svc.getNonce(account, 0);
      nonce.Success? && svc.feeData.Success? ==>
        var est := svc.estimateGas(DraftOp(kind, account, nonce.value, EncodeCallData(kind, svc.encode, req)));
        && (est.Failure? ==> r == Failure(Rejected(EstimateStage, est.error)))
        && (est.Success? && svc.feeData.value.maxFeePerGas.None? ==> r == Failure(InvalidHexlifyValue))
        && (est.Success? && svc.feeData.value.maxFeePerGas.Some? && svc.feeData.value.maxPriorityFeePerGas.None? ==>
              r == Failure(InvalidHexlifyValue))
    ensures var u := UnsignedOp(kind, account, svc, req);
      u.Success? ==>
        var hash := svc.getUserOpHash(u.value);
        && (hash.Failure? ==> SignedOp(kind, account, svc, req) == Failure(Rejected(HashStage, hash.error)))
        && (hash.Success? && svc.signMessage(hash.value).Failure? ==>
              SignedOp(kind, account, svc, req) == Failure(Rejected(SignStage, svc.signMessage(hash.value).error)))
  {
  }

  /** The assembly succeeds exactly when every service it calls answers and the
      provider reports both fee values. */
  lemma SignedOpSucceedsIff(kind: AccountKind, account: Address, svc: Services, req: Request)
    ensures SignedOp(kind, account, svc, req).Success? <==>
      && svc.getNonce(account, 0).Success?
      && svc.feeData.Success?
      && var draft := DraftOp(kind, account, svc.getNonce(account, 0).value, EncodeCallData(kind, svc.encode, req));
         && svc.estimateGas(draft).Success?
         && svc.feeData.value.maxFeePerGas.Some? && svc.feeData.value.maxPriorityFeePerGas.Some?
         && var u := WithFees(WithGasLimits(draft, kind, svc.estimateGas(draft).value),
                              svc.feeData.value.maxFeePerGas.value, svc.feeData.value.maxPriorityFeePerGas.value);
            && svc.getUserOpHash(u).Success?
            && svc.signMessage(svc.getUserOpHash(u).value).Success?
  {
  }

  /** Scenario: the bundler answers the signed operation with
      `{error: {message: "insufficient funds"}}`; the request fails with that
      message. */
  lemma InsufficientFundsFailsRequest(kind: AccountKind, account: Address, svc: Services, req: Request)
    requires SignedOp(kind, account, svc, req).Success?
    requires svc.sendUserOperation(SignedOp(kind, account, svc, req).value) == Success(Obj(map["error" := Obj(map["message" := Str("insufficient funds")])]))
    ensures SendUserOp(svc, SignedOp(kind, account, svc, req).value) == Failure(ErrorWithMessage(Str("insufficient funds")))
  {
  }
}
