// The JSON envelope the service answers with (lib/helper/response.ts).
module Response {
  import opened Wrappers
  import opened Json
  import opened CustomError
  import Common

  /** `ResponseStructure`: `{status, code, data, message}`. */
  datatype Payload = Payload(status: string, code: nat, data: Json, message: Option<string>)

  /** The HTTP status line and the body sent with it. */
  datatype Reply = Reply(httpStatus: nat, payload: Payload)

  /** What a controller hands to `ResponseSuccessBuilder`: a custom code, a message and the data. */
  datatype Answer = Answer(code: nat, message: string, data: Json)

  /** `isEmptyObject`: truthy, no own keys, and a plain object (an empty array is not one). */
  predicate IsEmptyObject(data: Json)
  {
    data == JObj([])
  }

  /** `responseBuilder`: an empty plain object is sent as `null`; the HTTP status is the code's leading three digits. */
  function Build(code: nat, status: string, message: Option<string>, data: Json): (r: Reply)
    requires code >= 1
    ensures r.payload.status == status && r.payload.code == code && r.payload.message == message
    ensures r.payload.data == (if data == JObj([]) then JNull else data)
    ensures code < 1000 ==> r.httpStatus == code
    ensures r.httpStatus >= 1
  {
    var status3 := Common.SubstringNumber(code, 3).value;
    Reply(status3, Payload(status, code, if IsEmptyObject(data) then JNull else data, message))
  }

  /** `ResponseSuccessBuilder`. */
  function SuccessReply(code: nat, message: Option<string>, data: Json): (r: Reply)
    requires code >= 1
    ensures r.payload.status == "Success" && r.payload.code == code
    ensures r.payload.message == message
    ensures r.payload.data == (if data == JObj([]) then JNull else data)
  {
    Build(code, "Success", message, data)
  }

  /**
   * `ResponseErrorBuilder`: an error without a `code` is first wrapped as an
   * "Internal Server Error" with code 500; the body carries the custom code,
   * the message, and the message of the underlying error (or `null`).
   * `Plain` stands for a thrown error without a `code` property; a raw error
   * that carries one (a driver's `QueryFailedError`, say) is not modelled.
   */
  function ErrorReply(err: Thrown): (r: Reply)
    requires err.Http? ==> err.ex.customCode >= 1
    ensures r.payload.status == "Failed"
    ensures err.Plain? ==> r == Reply(500, Payload("Failed", 500, JStr(err.cause.message), Some("Internal Server Error")))
    ensures err.Http? ==> r.payload.code == err.ex.customCode && r.payload.message == Some(err.ex.message)
    ensures err.Http? ==> r.payload.data == (match err.ex.detail case Some(c) => JStr(c.message) case None => JNull)
    ensures err.Http? && 1 <= err.ex.customCode < 1000 ==> r.httpStatus == err.ex.customCode
  {
    var ex := match err
      case Http(e) => e
      case Plain(c) => NewHttpException("Internal Server Error", 500, Some(c));
    var data := match ex.detail case Some(c) => JStr(c.message) case None => JNull;
    Build(ex.customCode, "Failed", Some(ex.message), data)
  }

  /** A custom exception is answered with the HTTP status its constructor derived from the code. */
  lemma ErrorStatusMatchesException(message: string, code: nat, cause: Option<Cause>)
    ensures ErrorReply(Http(NewHttpException(message, code, cause))).httpStatus
         == NewHttpException(message, code, cause).code
  {
    LeadingThree(code);
    Decimal.Pow10Small();
  }
}
