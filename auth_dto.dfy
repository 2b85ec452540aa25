// The request bodies of the auth routes (app/module/auth/auth.dto.ts) and
// the class-validator decorators that guard them, as predicates over the
// parsed body.
module AuthDto {
  import opened Json
  import opened Decimal

  // ----- class-validator's checks -----

  /** `@IsNotEmpty`: not `''`, `null` or `undefined`. */
  predicate IsNotEmpty(v: Json)
  {
    v != JStr("") && !v.JNull? && !v.JUndefined?
  }

  /** `@IsOptional`: a `null` or `undefined` value skips every other check of its property. */
  predicate Absent(v: Json)
  {
    v.JNull? || v.JUndefined?
  }

  /** `@IsString`. */
  predicate IsString(v: Json) { v.JStr? }

  /** `@IsNumber()`: any number (NaN and the infinities are not modelled). */
  predicate IsNumber(v: Json) { v.JNum? }

  // ----- The password rule -----

  /** The line terminators JavaScript's `.` refuses to match. */
  predicate IsLineTerminator(c: char)
  {
    c == '\n' || c == '\r' || c == '\U{2028}' || c == '\U{2029}'
  }

  predicate IsLower(c: char) { 'a' <= c <= 'z' }
  predicate IsUpper(c: char) { 'A' <= c <= 'Z' }

  /** `[\W_]`: anything outside `[A-Za-z0-9]`. */
  predicate IsSpecial(c: char) { !IsLower(c) && !IsUpper(c) && !IsDigit(c) }

  /** `(?=.*[x])`: a character of the class at some position that only ordinary characters precede. */
  predicate LookaheadLower(s: string)
  {
    exists i :: 0 <= i < |s| && IsLower(s[i]) && NoBreakBefore(s, i)
  }

  predicate LookaheadUpper(s: string)
  {
    exists i :: 0 <= i < |s| && IsUpper(s[i]) && NoBreakBefore(s, i)
  }

  predicate LookaheadDigit(s: string)
  {
    exists i :: 0 <= i < |s| && IsDigit(s[i]) && NoBreakBefore(s, i)
  }

  predicate LookaheadSpecial(s: string)
  {
    exists i :: 0 <= i < |s| && IsSpecial(s[i]) && NoBreakBefore(s, i)
  }

  predicate NoBreakBefore(s: string, i: nat)
    requires i <= |s|
  {
    forall j :: 0 <= j < i ==> !IsLineTerminator(s[j])
  }

  /**
   * `/^(?=.*[a-z])(?=.*[A-Z])(?=.*\d)(?=.*[\W_])[A-Za-z\d\W_]{8,}$/`. The
   * final class admits every character, so after the four lookaheads only
   * the length matters.
   */
  predicate PasswordPattern(s: string)
  {
    LookaheadLower(s) && LookaheadUpper(s) && LookaheadDigit(s) && LookaheadSpecial(s) && |s| >= 8
  }

  /** The policy as it reads: eight characters or more, with a lower, an upper, a digit and a special character. */
  predicate PasswordPolicy(s: string)
  {
    && |s| >= 8
    && (exists i :: 0 <= i < |s| && IsLower(s[i]))
    && (exists i :: 0 <= i < |s| && IsUpper(s[i]))
    && (exists i :: 0 <= i < |s| && IsDigit(s[i]))
    && (exists i :: 0 <= i < |s| && IsSpecial(s[i]))
  }

  /** On one line of text, the pattern is exactly the policy. */
  lemma PasswordPatternIsPolicy(s: string)
    requires forall i :: 0 <= i < |s| ==> !IsLineTerminator(s[i])
    ensures PasswordPattern(s) <==> PasswordPolicy(s)
  {
    assert forall i :: 0 <= i <= |s| ==> NoBreakBefore(s, i);
  }

  /**
   * Past the first line break the lookaheads find nothing: the pattern then
   * holds exactly when the text is long enough and a lower-case letter, an
   * upper-case letter and a digit all come before the break. The break
   * itself is the special character, as it is outside `[A-Za-z0-9]`.
   */
  lemma PasswordPatternAcrossLines(s: string, b: nat)
    requires b < |s| && IsLineTerminator(s[b]) && NoBreakBefore(s, b)
    ensures PasswordPattern(s) <==>
              && |s| >= 8
              && (exists i :: 0 <= i < b && IsLower(s[i]))
              && (exists i :: 0 <= i < b && IsUpper(s[i]))
              && (exists i :: 0 <= i < b && IsDigit(s[i]))
  {
    forall i | b < i <= |s| ensures !NoBreakBefore(s, i) {
      assert IsLineTerminator(s[b]);
    }
    forall i | 0 <= i <= b ensures NoBreakBefore(s, i) {
    }
    assert IsSpecial(s[b]);
  }

  /** `@IsNotEmpty @IsString @Matches(password pattern)`; `Matches` refuses anything but a string. */
  predicate ValidPassword(v: Json)
  {
    IsNotEmpty(v) && IsString(v) && PasswordPattern(v.s)
  }

  /** A required `@IsNotEmpty @IsString` property. */
  predicate RequiredString(v: Json)
  {
    IsNotEmpty(v) && IsString(v)
  }

  /** A required `@IsNotEmpty @IsNumber()` property. */
  predicate RequiredNumber(v: Json)
  {
    IsNotEmpty(v) && IsNumber(v)
  }

  // ----- The DTOs -----

  /** `SignInDto`, which also guards sign-up: the password may be left out. */
  predicate ValidSignIn(body: Json)
  {
    && RequiredString(Member(body, "email"))
    && (Absent(Member(body, "password")) || ValidPassword(Member(body, "password")))
    && RequiredNumber(Member(body, "type"))
  }

  predicate ValidSetupPin(body: Json)
  {
    RequiredString(Member(body, "signature")) && RequiredNumber(Member(body, "pin"))
  }

  /** `OtpDto`. */
  predicate ValidOtp(body: Json)
  {
    && RequiredString(Member(body, "user_id"))
    && RequiredString(Member(body, "data"))
    && RequiredNumber(Member(body, "code"))
    && (Absent(Member(body, "type")) || RequiredString(Member(body, "type")))
  }

  predicate ValidForgotPassword(body: Json)
  {
    RequiredString(Member(body, "email"))
  }

  predicate ValidVerifyOtp(body: Json)
  {
    RequiredString(Member(body, "signature")) && RequiredNumber(Member(body, "code"))
  }

  predicate ValidResendOtp(body: Json)
  {
    RequiredString(Member(body, "signature"))
  }

  /** `ResetPasswordDto`: here the password is mandatory. */
  predicate ValidResetPassword(body: Json)
  {
    RequiredString(Member(body, "signature")) && ValidPassword(Member(body, "password"))
  }

  predicate ValidRefreshToken(body: Json)
  {
    RequiredString(Member(body, "refresh_token"))
  }

  /** A sign-in body may leave the password out; a reset body may not. */
  lemma PasswordOptionalOnlyAtSignIn(email: string, kind: int, signature: string)
    requires email != "" && signature != ""
    ensures ValidSignIn(JObj([Prop("email", JStr(email)), Prop("type", JNum(kind))]))
    ensures !ValidResetPassword(JObj([Prop("signature", JStr(signature))]))
  {
    var signIn := [Prop("email", JStr(email)), Prop("type", JNum(kind))];
    assert Get(signIn, "email") == JStr(email);
    assert Get(signIn, "password") == JUndefined by {
      assert Get(signIn[1..], "password") == Get(signIn[2..], "password");
    }
    assert Get(signIn, "type") == JNum(kind) by {
      assert Get(signIn[1..], "type") == JNum(kind);
    }
    var reset := [Prop("signature", JStr(signature))];
    assert Get(reset, "password") == Get(reset[1..], "password");
  }

  /** A password given at sign-in is held to the same pattern as a reset password. */
  lemma SignInPasswordChecked(body: Json)
    requires ValidSignIn(body) && !Absent(Member(body, "password"))
    ensures Member(body, "password").JStr? && PasswordPattern(Member(body, "password").s)
  {
  }

  /** The PIN step needs a string signature and a number; the OTP step a string signature and a numeric code. */
  lemma PinAndOtpShapes(body: Json)
    ensures ValidSetupPin(body) <==> Member(body, "signature").JStr? && Member(body, "signature") != JStr("") && Member(body, "pin").JNum?
    ensures ValidVerifyOtp(body) <==> Member(body, "signature").JStr? && Member(body, "signature") != JStr("") && Member(body, "code").JNum?
  {
  }
}
