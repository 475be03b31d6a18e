/**
 * The WAF expression validator: it posts an expression, and optionally test data, to a
 * validation API and turns the API's answer into a result dict. The HTTP client is a
 * parameter `post` that gives, for a URL and a JSON payload, what the request came to.
 *
 * Reading the answer can raise in the source (an answer that is not a dict, or a `test_result`
 * that is not one); the model's result is then None.
 */
module WafValidator {
  import opened Common
  import opened Json

  /** What one POST came to: no response at all, or a status and a body that parsed (or not). */
  datatype Reply = Unreachable | Reply(status: int, body: Option<Json>)

  /** The answer `_api_request` substitutes for every failure. */
  const FailureFields: seq<(string, Json)> := [("error", JStr("API request failed"))]

  /** `raise_for_status()`: a client or server error status raises. */
  predicate ErrorStatus(status: int)
  {
    400 <= status < 600
  }

  /**
   * `_api_request`: the parsed body of a successful response; a request that failed, an error
   * status and a body that is not JSON all give the failure dict.
   */
  function ApiResponse(reply: Reply): (r: Json)
    ensures reply.Reply? && !ErrorStatus(reply.status) && reply.body.Some? ==> r == reply.body.value
    ensures !(reply.Reply? && !ErrorStatus(reply.status) && reply.body.Some?) ==> r == JObj(FailureFields)
  {
    match reply
    case Unreachable => JObj(FailureFields)
    case Reply(status, body) =>
      if ErrorStatus(status) then JObj(FailureFields)
      else if body.None? then JObj(FailureFields)
      else body.value
  }

  /** `test_data is not None and len(test_data) > 0`. */
  predicate HasTestData(testData: Option<seq<(string, Json)>>)
  {
    testData.Some? && |testData.value| > 0
  }

  /** The payload: the expression, the `test_match` flag, and the test data only when there is some. */
  function Payload(expression: string, testData: Option<seq<(string, Json)>>, testMatch: bool): (p: seq<(string, Json)>)
    ensures Keys(p) == ["expression", "test_match"] + (if HasTestData(testData) then ["test"] else [])
    ensures Lookup(p, "expression") == Some(JStr(expression))
    ensures Lookup(p, "test_match") == Some(JBool(testMatch))
    ensures Lookup(p, "test") == if HasTestData(testData) then Some(JObj(testData.value)) else None
  {
    var p := [("expression", JStr(expression)), ("test_match", JBool(testMatch))];
    assert Keys(p) == ["expression", "test_match"];
    if HasTestData(testData) then
      LookupPut(p, "test", JObj(testData.value), "expression");
      LookupPut(p, "test", JObj(testData.value), "test_match");
      LookupPut(p, "test", JObj(testData.value), "test");
      Put(p, "test", JObj(testData.value))
    else
      p
  }

  /** `response.get("valid", False)`. */
  function Valid(response: seq<(string, Json)>): Json
  {
    GetOr(response, "valid", JBool(false))
  }

  /** `response.get("error_message", "Unknown error")`. */
  function ErrorMessage(response: seq<(string, Json)>): Json
  {
    GetOr(response, "error_message", JStr("Unknown error"))
  }

  /** `response.get("test_result", {})`. */
  function TestResult(response: seq<(string, Json)>): Json
  {
    GetOr(response, "test_result", JObj([]))
  }

  /** The fields of a JSON value that is a dict, and none otherwise. */
  function FieldsOf(j: Json): seq<(string, Json)>
  {
    if j.JObj? then j.fields else []
  }

  /** Whether the test result of an answer reports an error. */
  predicate TestFailed(response: seq<(string, Json)>)
  {
    Truthy(Get(FieldsOf(TestResult(response)), "error"))
  }

  /** `test_result.get("matched", False)`. */
  function Matched(response: seq<(string, Json)>): Json
  {
    GetOr(FieldsOf(TestResult(response)), "matched", JBool(false))
  }

  /** `test_result.get("error")`. */
  function TestError(response: seq<(string, Json)>): Json
  {
    Get(FieldsOf(TestResult(response)), "error")
  }

  /**
   * The result dict of `validate_waf_expression`. Every key it sets is new, so each assignment
   * appends. None when `test_result` had to be read and is not a dict.
   */
  function ValidationResult(response: seq<(string, Json)>, testMatch: bool): (r: Option<seq<(string, Json)>>)
    ensures r.None? <==> testMatch && !TestResult(response).JObj?
  {
    if testMatch && !TestResult(response).JObj? then None
    else
      Some(Entry(true, "valid", Valid(response))
           + Entry(!Truthy(Valid(response)), "error_message", ErrorMessage(response))
           + Entry(testMatch, "matched", Matched(response))
           + Entry(testMatch && TestFailed(response), "test_error", TestError(response)))
  }

  /**
   * What `validate_waf_expression` reports: `valid` always, `error_message` exactly when the
   * answer is not valid, and, only when test data was sent, `matched` and (when the test
   * reported an error) `test_error`.
   */
  lemma ValidationResultFields(response: seq<(string, Json)>, testMatch: bool)
    requires ValidationResult(response, testMatch).Some?
    ensures var r := ValidationResult(response, testMatch).value;
            && Keys(r) == ["valid"] + (if Truthy(Valid(response)) then [] else ["error_message"])
                          + (if testMatch then ["matched"] else [])
                          + (if testMatch && TestFailed(response) then ["test_error"] else [])
            && Lookup(r, "valid") == Some(Valid(response))
            && Lookup(r, "error_message") == (if Truthy(Valid(response)) then None else Some(ErrorMessage(response)))
            && Lookup(r, "matched") == (if testMatch then Some(Matched(response)) else None)
            && Lookup(r, "test_error") == (if testMatch && TestFailed(response) then Some(TestError(response)) else None)
  {
    var valid, failed := Truthy(Valid(response)), TestFailed(response);
    var m, t := Matched(response), TestError(response);
    var msg, v := ErrorMessage(response), Valid(response);
    FourKeys(true, "valid", v, !valid, "error_message", msg, testMatch, "matched", m, testMatch && failed, "test_error", t);
    FourLookup(true, "valid", v, !valid, "error_message", msg, testMatch, "matched", m, testMatch && failed, "test_error", t, "valid");
    FourLookup(true, "valid", v, !valid, "error_message", msg, testMatch, "matched", m, testMatch && failed, "test_error", t, "error_message");
    FourLookup(true, "valid", v, !valid, "error_message", msg, testMatch, "matched", m, testMatch && failed, "test_error", t, "matched");
    FourLookup(true, "valid", v, !valid, "error_message", msg, testMatch, "matched", m, testMatch && failed, "test_error", t, "test_error");
  }

  /**
   * The result dict of `test_waf_expression`. Every key it sets is new, so each assignment
   * appends. None when `test_result` is not a dict.
   */
  function TestOutcome(response: seq<(string, Json)>): (r: Option<seq<(string, Json)>>)
    ensures r.None? <==> !TestResult(response).JObj?
  {
    if !TestResult(response).JObj? then None
    else
      Some(Entry(true, "valid", Valid(response))
           + Entry(true, "matched", Matched(response))
           + Entry(!Truthy(Valid(response)), "error", ErrorMessage(response))
           + Entry(TestFailed(response), "test_error", TestError(response)))
  }

  /**
   * What `test_waf_expression` reports: `valid` and `matched` always, `error` (not
   * `error_message`) exactly when the answer is not valid, `test_error` when the test reported
   * an error.
   */
  lemma TestOutcomeFields(response: seq<(string, Json)>)
    requires TestOutcome(response).Some?
    ensures var r := TestOutcome(response).value;
            && Keys(r) == ["valid"] + ["matched"] + (if Truthy(Valid(response)) then [] else ["error"])
                          + (if TestFailed(response) then ["test_error"] else [])
            && Lookup(r, "valid") == Some(Valid(response))
            && Lookup(r, "matched") == Some(Matched(response))
            && Lookup(r, "error") == (if Truthy(Valid(response)) then None else Some(ErrorMessage(response)))
            && Lookup(r, "test_error") == (if TestFailed(response) then Some(TestError(response)) else None)
  {
    var valid, failed := Truthy(Valid(response)), TestFailed(response);
    var m, t := Matched(response), TestError(response);
    var msg, v := ErrorMessage(response), Valid(response);
    FourKeys(true, "valid", v, true, "matched", m, !valid, "error", msg, failed, "test_error", t);
    FourLookup(true, "valid", v, true, "matched", m, !valid, "error", msg, failed, "test_error", t, "valid");
    FourLookup(true, "valid", v, true, "matched", m, !valid, "error", msg, failed, "test_error", t, "matched");
    FourLookup(true, "valid", v, true, "matched", m, !valid, "error", msg, failed, "test_error", t, "error");
    FourLookup(true, "valid", v, true, "matched", m, !valid, "error", msg, failed, "test_error", t, "test_error");
  }

  /**
   * A request that failed reads as invalid with the default message: the failure dict has no
   * `valid` and no `error_message`, and no `test_result` either.
   */
  lemma FailedRequestIsInvalid(testMatch: bool)
    ensures var r := ValidationResult(FailureFields, testMatch);
            && r.Some?
            && Lookup(r.value, "valid") == Some(JBool(false))
            && Lookup(r.value, "error_message") == Some(JStr("Unknown error"))
            && (testMatch ==> Lookup(r.value, "matched") == Some(JBool(false)))
            && "test_error" !in Keys(r.value)
    ensures var r := TestOutcome(FailureFields);
            && r.Some?
            && Lookup(r.value, "valid") == Some(JBool(false))
            && Lookup(r.value, "matched") == Some(JBool(false))
            && Lookup(r.value, "error") == Some(JStr("Unknown error"))
            && "test_error" !in Keys(r.value)
  {
    LookupCons("error", JStr("API request failed"), [], "valid");
    LookupCons("error", JStr("API request failed"), [], "error_message");
    LookupCons("error", JStr("API request failed"), [], "test_result");
    assert Valid(FailureFields) == JBool(false);
    assert TestResult(FailureFields) == JObj([]);
    ValidationResultFields(FailureFields, testMatch);
    TestOutcomeFields(FailureFields);
  }

  /**
   * On the same answer, testing and validating with test data agree on `valid`, `matched` and
   * `test_error`, and report the same message, under `error` and `error_message` respectively.
   */
  lemma TestAgreesWithValidation(response: seq<(string, Json)>)
    ensures ValidationResult(response, true).Some? <==> TestOutcome(response).Some?
    ensures var v, t := ValidationResult(response, true), TestOutcome(response);
            v.Some? ==>
              && Lookup(v.value, "valid") == Lookup(t.value, "valid")
              && Lookup(v.value, "matched") == Lookup(t.value, "matched")
              && Lookup(v.value, "test_error") == Lookup(t.value, "test_error")
              && Lookup(v.value, "error_message") == Lookup(t.value, "error")
  {
    if ValidationResult(response, true).Some? {
      ValidationResultFields(response, true);
      TestOutcomeFields(response);
    }
  }

  /** `WAFValidator`. */
  class WafValidator {
    const validationUrl: string

    constructor (validationUrl: string)
      ensures this.validationUrl == validationUrl
    {
      this.validationUrl := validationUrl;
    }

    /** `_api_request`: POST the payload, and fall back to the failure dict on any error. */
    method ApiRequest(payload: seq<(string, Json)>, post: (string, Json) -> Reply) returns (response: Json)
      ensures response == ApiResponse(post(validationUrl, JObj(payload)))
    {
      var reply := post(validationUrl, JObj(payload));
      if reply.Unreachable? {
        return JObj(FailureFields);
      }
      if ErrorStatus(reply.status) {
        return JObj(FailureFields);
      }
      if reply.body.None? {
        return JObj(FailureFields);
      }
      return reply.body.value;
    }

    /** `validate_waf_expression`; `sent` is the payload that was posted. */
    method ValidateWafExpression(expression: string, testData: Option<seq<(string, Json)>>, post: (string, Json) -> Reply)
      returns (sent: seq<(string, Json)>, result: Option<seq<(string, Json)>>)
      ensures sent == Payload(expression, testData, HasTestData(testData))
      ensures var response := ApiResponse(post(validationUrl, JObj(sent)));
              result == if response.JObj? then ValidationResult(response.fields, HasTestData(testData)) else None
    {
      var testMatch := testData.Some? && |testData.value| > 0;
      sent := [("expression", JStr(expression)), ("test_match", JBool(testMatch))];
      if testData.Some? && |testData.value| > 0 {
        sent := Put(sent, "test", JObj(testData.value));
      }
      var response := ApiRequest(sent, post);
      if !response.JObj? {
        return sent, None;
      }
      var answer := response.fields;
      // Every key below is assigned once, into a dict that lacks it, so each assignment appends.
      var r := [("valid", GetOr(answer, "valid", JBool(false)))];
      assert r == Entry(true, "valid", Valid(answer));
      if !Truthy(r[0].1) {
        r := r + [("error_message", GetOr(answer, "error_message", JStr("Unknown error")))];
      }
      assert r == Entry(true, "valid", Valid(answer)) + Entry(!Truthy(Valid(answer)), "error_message", ErrorMessage(answer));
      ghost var head := r;
      if testMatch {
        var testResult := GetOr(answer, "test_result", JObj([]));
        if !testResult.JObj? {
          return sent, None;
        }
        r := r + [("matched", GetOr(testResult.fields, "matched", JBool(false)))];
        assert r == head + Entry(true, "matched", Matched(answer));
        if Truthy(Get(testResult.fields, "error")) {
          r := r + [("test_error", GetOr(testResult.fields, "error", JStr("Unknown error")))];
        }
        assert r == head + Entry(true, "matched", Matched(answer)) + Entry(TestFailed(answer), "test_error", TestError(answer));
      } else {
        assert r == head + Entry(false, "matched", Matched(answer)) + Entry(false, "test_error", TestError(answer));
      }
      return sent, Some(r);
    }

    /** `test_waf_expression`: always asks for a match test; `sent` is the payload that was posted. */
    method TestWafExpression(expression: string, testData: Option<seq<(string, Json)>>, post: (string, Json) -> Reply)
      returns (sent: seq<(string, Json)>, result: Option<seq<(string, Json)>>)
      ensures sent == Payload(expression, testData, true)
      ensures var response := ApiResponse(post(validationUrl, JObj(sent)));
              result == if response.JObj? then TestOutcome(response.fields) else None
    {
      sent := [("expression", JStr(expression)), ("test_match", JBool(true))];
      if testData.Some? && |testData.value| > 0 {
        sent := Put(sent, "test", JObj(testData.value));
      }
      var response := ApiRequest(sent, post);
      if !response.JObj? {
        return sent, None;
      }
      var answer := response.fields;
      var testResult := GetOr(answer, "test_result", JObj([]));
      if !testResult.JObj? {
        return sent, None;
      }
      // Every key below is assigned once, into a dict that lacks it, so each assignment appends.
      var r := [("valid", GetOr(answer, "valid", JBool(false))), ("matched", GetOr(testResult.fields, "matched", JBool(false)))];
      assert r == Entry(true, "valid", Valid(answer)) + Entry(true, "matched", Matched(answer));
      ghost var head := r;
      if !Truthy(r[0].1) {
        r := r + [("error", GetOr(answer, "error_message", JStr("Unknown error")))];
      }
      assert r == head + Entry(!Truthy(Valid(answer)), "error", ErrorMessage(answer));
      ghost var withError := r;
      if Truthy(Get(testResult.fields, "error")) {
        r := r + [("test_error", GetOr(testResult.fields, "error", JStr("Unknown error")))];
      }
      assert r == withError + Entry(TestFailed(answer), "test_error", TestError(answer));
      return sent, Some(r);
    }
  }
}
