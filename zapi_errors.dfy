/** How the ONTAP client classifies the outcome of a ZAPI call: the status,
    reason and errno triple of a response (`ZapiError`), the predicates the
    drivers use to recognise common failures, and `GetError`, which decides
    which of a transport error and a response failure is reported. */
module ZapiErrors {
  import opened Wrappers
  import opened Strs

  /** ZAPI errno values the client tests for. The constants are defined by the
      generated `azgo` package, which is not part of this model; the model uses
      ONTAP's errno numbers, and every proof uses only that they are distinct. */
  const EINTERNALERROR := "13114"
  const EAPIPRIVILEGE := "13003"
  const EAPINOTFOUND := "13005"
  const EVOLUMEDOESNOTEXIST := "13040"
  const EOBJECTNOTFOUND := "15661"

  const PassedStatus := "passed"

  /** The status, reason and errno of one ZAPI invocation. */
  datatype ZapiError = ZapiError(status: string, reason: string, code: string)
  {
    predicate IsPassed()
    {
      status == PassedStatus
    }

    /** Missing privileges; such an error is always also a scope error. */
    predicate IsPrivilegeError(): (r: bool)
      ensures r ==> IsScopeError()
    {
      code == EAPIPRIVILEGE
    }

    predicate IsScopeError()
    {
      code == EAPIPRIVILEGE || code == EAPINOTFOUND
    }

    /** A job that could not be loaded is an internal error, never a scope error. */
    predicate IsFailedToLoadJobError(): (r: bool)
      ensures r ==> !IsScopeError() && !IsPrivilegeError()
    {
      code == EINTERNALERROR && Contains(reason, "Failed to load job")
    }
  }

  /** Whether a call passed depends on its status alone; the error classes
      depend on its code and reason alone, whatever the status says. */
  lemma PassedDependsOnStatusOnly(e: ZapiError, status: string, reason: string, code: string)
    ensures e.(reason := reason, code := code).IsPassed() == e.IsPassed()
    ensures e.(status := status).IsScopeError() == e.IsScopeError()
    ensures e.(status := status).IsPrivilegeError() == e.IsPrivilegeError()
    ensures e.(status := status).IsFailedToLoadJobError() == e.IsFailedToLoadJobError()
  {
  }

  /** A scope error is exactly a privilege error or an unknown API. */
  lemma ScopeErrorCases(e: ZapiError)
    ensures e.IsScopeError() <==> e.IsPrivilegeError() || e.code == EAPINOTFOUND
  {
  }

  /** `ZapiError.Error()`: a passed status reads as exactly "API status: passed";
      anything else spells out status, reason and code. */
  function ZapiErrorText(e: ZapiError): (s: string)
    ensures s == "API status: passed" <==> e.IsPassed()
  {
    if e.IsPassed() then "API status: passed"
    else "API status: " + e.status + ", Reason: " + e.reason + ", Code: " + e.code
  }

  /** The text of a failed status names the status, the reason and the code. */
  lemma ZapiErrorTextEmbeds(e: ZapiError)
    requires !e.IsPassed()
    ensures Contains(ZapiErrorText(e), e.status)
    ensures Contains(ZapiErrorText(e), e.reason)
    ensures Contains(ZapiErrorText(e), e.code)
  {
    var s := ZapiErrorText(e);
    ContainsMiddle("API status: ", e.status, ", Reason: " + e.reason + ", Code: " + e.code);
    assert s == "API status: " + e.status + (", Reason: " + e.reason + ", Code: " + e.code);
    ContainsMiddle("API status: " + e.status + ", Reason: ", e.reason, ", Code: " + e.code);
    assert s == "API status: " + e.status + ", Reason: " + e.reason + (", Code: " + e.code);
    ContainsMiddle("API status: " + e.status + ", Reason: " + e.reason + ", Code: ", e.code, "");
    assert s == "API status: " + e.status + ", Reason: " + e.reason + ", Code: " + e.code + "";
  }

  /** A Go `error` as the model sees it: either a ZAPI status triple or a
      formatted message. */
  datatype Error = ZapiFailure(zerr: ZapiError) | Message(text: string)

  /** `err.Error()`. */
  function ErrorText(e: Error): string
  {
    match e
    case ZapiFailure(z) => ZapiErrorText(z)
    case Message(t) => t
  }

  /** What `NewZapiError(nil)` produces. */
  const NilResultError := ZapiError("failed", "unexpected nil ZAPI result", EINTERNALERROR)

  /** `NewZapiError`: a present result contributes its own triple (read by
      reflection in the source); a nil result is an internal failure. */
  function NewZapiError(result: Option<ZapiError>): (e: ZapiError)
    ensures result.None? ==> !e.IsPassed()
    ensures result.None? ==> e.status == "failed" && e.reason == "unexpected nil ZAPI result" && e.code == EINTERNALERROR
    ensures result.Some? ==> e == result.value
  {
    match result
    case Some(z) => z
    case None => NilResultError
  }

  /** `GetError`: an incoming error wins whatever the response says; otherwise
      the response's own failure is reported, and nothing when it passed. */
  function GetError(result: Option<ZapiError>, errorIn: Option<Error>): (errorOut: Option<Error>)
    ensures errorIn.Some? ==> errorOut == errorIn
    ensures errorIn.None? ==> (errorOut.None? <==> result.Some? && result.value.IsPassed())
    ensures errorIn.None? && errorOut.Some? ==> errorOut == Some(ZapiFailure(NewZapiError(result)))
  {
    if errorIn.Some? then errorIn
    else
      var zerr := NewZapiError(result);
      if !zerr.IsPassed() then Some(ZapiFailure(zerr)) else None
  }
}
