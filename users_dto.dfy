// The user payload (app/module/users/users.dto.ts): a required e-mail
// address and optional profile fields, with enumerated type and status codes
// and a four-digit PIN.
module UsersDto {
  import opened Json
  import opened Decimal
  import opened AuthDto

  /** `@IsEnum([..])` over an array: the value is one of the listed numbers. */
  predicate IsEnum(v: Json, values: seq<int>)
  {
    v.JNum? && v.n in values
  }

  /** `/^\d{4}$/`: exactly four ASCII digits. */
  predicate IsFourDigits(s: string)
  {
    |s| == 4 && AllDigits(s)
  }

  /** An optional property: absent, or non-empty and passing `rule`. */
  predicate Optional(v: Json, rule: Json -> bool)
  {
    Absent(v) || (IsNotEmpty(v) && rule(v))
  }

  /**
   * `UserDto`. `isEmail` is class-validator's address syntax check, a
   * parameter here; like every string check it refuses non-strings.
   */
  predicate ValidUser(body: Json, isEmail: string -> bool)
  {
    var email := Member(body, "email");
    && IsNotEmpty(email) && email.JStr? && isEmail(email.s)
    && Optional(Member(body, "phone"), (_: Json) => true)
    && Optional(Member(body, "username"), IsString)
    && Optional(Member(body, "role_id"), IsString)
    && Optional(Member(body, "type"), (v: Json) => IsEnum(v, [0, 1, 2]))
    && Optional(Member(body, "status"), (v: Json) => IsEnum(v, [0, 1, 2, 3]))
    && Optional(Member(body, "pin"), (v: Json) => v.JStr? && IsFourDigits(v.s))
    && Optional(Member(body, "password"), IsString)
    && Optional(Member(body, "referral_code"), IsString)
    && Optional(Member(body, "district"), IsString)
    && Optional(Member(body, "city"), IsString)
    && Optional(Member(body, "province"), IsString)
  }

  /** A present type is 0, 1 or 2 and a present status 0 to 3. */
  lemma EnumFields(body: Json, isEmail: string -> bool)
    requires ValidUser(body, isEmail)
    ensures !Absent(Member(body, "type")) ==> Member(body, "type") in {JNum(0), JNum(1), JNum(2)}
    ensures !Absent(Member(body, "status")) ==> Member(body, "status") in {JNum(0), JNum(1), JNum(2), JNum(3)}
  {
    var t := Member(body, "type");
    var st := Member(body, "status");
    if !Absent(t) {
      assert IsEnum(t, [0, 1, 2]);
    }
    if !Absent(st) {
      assert IsEnum(st, [0, 1, 2, 3]);
    }
  }

  /**
   * A present PIN is a string of exactly four digits: `Matches` refuses a
   * number, so a PIN sent as a JSON number never passes.
   */
  lemma PinIsFourDigitString(body: Json, isEmail: string -> bool)
    requires ValidUser(body, isEmail)
    ensures !Absent(Member(body, "pin")) ==> Member(body, "pin").JStr? && IsFourDigits(Member(body, "pin").s)
    ensures forall n :: Member(body, "pin") != JNum(n)
  {
  }

  /** The e-mail address is the one required property: a body holding only a good address passes. */
  lemma EmailRequired(body: Json, address: string, isEmail: string -> bool)
    requires Absent(Member(body, "email"))
    requires address != "" && isEmail(address)
    ensures !ValidUser(body, isEmail)
    ensures ValidUser(JObj([Prop("email", JStr(address))]), isEmail)
  {
    OnlyEmailValid(address, isEmail);
  }

  lemma OnlyEmailValid(address: string, isEmail: string -> bool)
    requires address != "" && isEmail(address)
    ensures ValidUser(JObj([Prop("email", JStr(address))]), isEmail)
  {
    var only := [Prop("email", JStr(address))];
    forall k | k != "email" ensures Member(JObj(only), k) == JUndefined {
      assert Get(only, k) == Get(only[1..], k);
    }
  }
}
