// The service's own exception (lib/helper/customError.ts) and the shape of
// every failure an operation can end in.
module CustomError {
  import opened Wrappers
  import opened Decimal
  import Common

  /** What is known of an underlying JavaScript `Error`: its `name` and `message`. */
  datatype Cause = Cause(name: string, message: string)

  /**
   * `CustomHttpExceptionError`: `customCode` is the code the caller chose
   * (it may carry more than three digits, such as 202001), `code` the HTTP
   * status read from its leading three digits.
   */
  datatype HttpException = HttpException(message: string, code: nat, customCode: nat, detail: Option<Cause>)

  /** Anything an operation can throw: the custom exception, or any other error. */
  datatype Thrown = Http(ex: HttpException) | Plain(cause: Cause)

  /** The result of an operation that may throw. */
  datatype Outcome<T> = Ok(value: T) | Fail(error: Thrown)

  /** `new CustomHttpExceptionError(message, code, error)`. */
  function NewHttpException(message: string, code: nat, error: Option<Cause>): (e: HttpException)
    ensures e.message == message && e.detail == error
    ensures e.customCode == (if code == 0 then 500 else code)
    ensures 1 <= code < 1000 ==> e.code == code
    ensures code == 0 ==> e.code == 500
    ensures code >= 1000 ==> e.code == Common.SubstringNumber(code, 3).value && 100 <= e.code < 1000
  {
    var lead := Common.SubstringNumber(code, 3).value;
    Pow10Small();
    LeadingThree(code);
    HttpException(message, if lead == 0 then 500 else lead, if code == 0 then 500 else code, error)
  }

  /** A number of four digits or more starts with a three-digit number. */
  lemma LeadingThree(code: nat)
    ensures code >= 1000 ==> 100 <= Common.SubstringNumber(code, 3).value < 1000
  {
    if code >= 1000 {
      LeadingThreeDigits(code);
    }
  }

  lemma LeadingThreeDigits(code: nat)
    requires code >= 1000
    ensures 100 <= Common.SubstringNumber(code, 3).value < 1000
  {
    Pow10Small();
    var v := Common.SubstringNumber(code, 3).value;
    var d := |NatToString(code)|;
    NatToStringBounds(code);
    assert d > 3;
    Pow10Add(d - 3, 3);
    Pow10Add(d - 3, 2);
    assert d - 3 + 2 == d - 1;
    var p := Pow10(d - 3);
    assert p * v <= code < p * (v + 1);
    assert code < p * 1000;
    assert p * 100 <= code;
    if v >= 1000 {
      MulMonotone(p, 1000, v);
    }
    if v < 100 {
      MulMonotone(p, v + 1, 100);
    }
  }

  lemma MulMonotone(p: nat, a: nat, b: nat)
    requires a <= b
    ensures p * a <= p * b
  {
  }

  /** The HTTP status 202 that goes with the custom code 202001. */
  lemma CustomCodeStatus()
    ensures NewHttpException("", 202001, None).code == 202
  {
    var v := Common.SubstringNumber(202001, 3).value;
    LeadingThree(202001);
    Pow10Small();
    assert NatToString(202001) == "202001" by {
      assert NatToString(2) == "2";
      assert NatToString(20) == "20";
      assert NatToString(202) == "202";
      assert NatToString(2020) == "2020";
      assert NatToString(20200) == "20200";
    }
    assert ParseDigits("202") == 202 by {
      assert ParseDigits("2") == 2;
      assert ParseDigits("20") == 20;
    }
  }

  /** The usual way the service throws: a message and a code, without an underlying error. */
  function Throw(message: string, code: nat): (t: Thrown)
    ensures t.Http? && t.ex.message == message && t.ex.detail.None?
    ensures 1 <= code < 1000 ==> t.ex.code == code && t.ex.customCode == code
  {
    Http(NewHttpException(message, code, None))
  }
}
