/** Interpretation of the bundler's reply to `eth_sendUserOperation`. */
module Submission {
  import opened Wrappers
  import opened JsValues
  import opened Errors

  const GENERIC_ERROR: string := "Something went wrong. Please try again."

  /** `result && result.error && result.error.message` */
  predicate HasErrorMessage(v: Js) {
    Truthy(v) && Truthy(Prop(v, "error")) && Truthy(Prop(Prop(v, "error"), "message"))
  }

  /** A reply carrying a truthy `error.message` throws that message; any other
      truthy reply is returned as it is; a falsy reply throws the generic text. */
  function Classify(v: Js): (r: Result<Js, Failure>)
    ensures r.Success? <==> Truthy(v) && !HasErrorMessage(v)
    ensures r.Success? ==> r.value == v
    ensures HasErrorMessage(v) ==> r == Failure(ErrorWithMessage(Prop(Prop(v, "error"), "message")))
    ensures r.Failure? ==> r.error == ErrorWithMessage(Prop(Prop(v, "error"), "message")) || r.error == ThrownText(GENERIC_ERROR)
    ensures r.Failure? && r.error.ErrorWithMessage? ==> Truthy(r.error.message)
    ensures !Truthy(v) ==> r == Failure(ThrownText(GENERIC_ERROR))
  {
    if HasErrorMessage(v) then Failure(ErrorWithMessage(Prop(Prop(v, "error"), "message")))
    else if Truthy(v) then Success(v)
    else Failure(ThrownText(GENERIC_ERROR))
  }

  /** The bundler rejecting with `{error: {message: "insufficient funds"}}`
      surfaces as an error with exactly that message. */
  lemma ClassifyInsufficientFunds()
    ensures Classify(Obj(map["error" := Obj(map["message" := Str("insufficient funds")])]))
      == Failure(ErrorWithMessage(Str("insufficient funds")))
  {
  }

  /** A reply with an `error` object but no (or an empty) message is not an
      error to the classifier: it is returned unchanged. */
  lemma ErrorWithoutMessageIsReturned(fields: map<string, Js>, errorFields: map<string, Js>)
    requires "error" in fields && fields["error"] == Obj(errorFields)
    requires "message" in errorFields ==> !Truthy(errorFields["message"])
    ensures Classify(Obj(fields)) == Success(Obj(fields))
  {
  }

  /** Every falsy reply throws the generic text, whatever kind of value it is. */
  lemma FalsyRepliesThrowGenericText()
    ensures Classify(Undefined) == Failure(ThrownText(GENERIC_ERROR))
    ensures Classify(Null) == Failure(ThrownText(GENERIC_ERROR))
    ensures Classify(Bool(false)) == Failure(ThrownText(GENERIC_ERROR))
    ensures Classify(Num(0)) == Failure(ThrownText(GENERIC_ERROR))
    ensures Classify(Str("")) == Failure(ThrownText(GENERIC_ERROR))
  {
  }

  /** The reply ERC-4337 specifies, the operation hash as a hex string, is
      returned as it is. */
  lemma UserOpHashReplyIsReturned(hash: string)
    requires hash != ""
    ensures Classify(Str(hash)) == Success(Str(hash))
  {
  }
}
