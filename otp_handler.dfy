// The older OTP generator (lib/helper/otpHandler.ts): the same message and
// store call as `AuthHandler.HandleOtpGeneration`, without a `type` tag.
module OtpHandler {
  import opened Wrappers
  import opened Json
  import opened Common
  import opened Tables
  import opened AuthService
  import opened AuthHandler

  /**
   * `HandleOtpGeneration(user, authService)`: one `StoreOtp` of the message
   * `email|timestamp|code` under the user's id, with no tag; it hands back
   * the message and code it stored.
   */
  method HandleOtpGeneration(user: Json, auth: AuthService, wall: DateTime, now: int, random: real)
    returns (g: GeneratedOtp)
    requires 0.0 <= random < 1.0 && auth.db.Valid()
    modifies auth.db
    ensures auth.db.Valid()
    ensures g == OtpFor(user, wall, random)
    ensures auth.db.State() == StoreOtpStep(old(auth.db.State()), OtpRecord(user, g, None), now)
  {
    var timestamp := GetTimestamp(wall);
    SixDigits();
    var code := GenerateRandomNumber(6, random);
    var message := OtpMessage(Member(user, "email"), timestamp, code);
    g := GeneratedOtp(message, code);
    auth.StoreOtp(OtpDto(Member(user, "id"), message, code, None), now);
  }

  /**
   * Leaving the tag out changes nothing in the tables: `StoreOtp` writes no
   * `type` of its own, so both generators leave the same rows behind, and a
   * new row is untagged either way.
   */
  lemma TagNotStored(s: Snapshot, user: Json, g: GeneratedOtp, tag: string, now: int)
    ensures StoreOtpStep(s, OtpRecord(user, g, None), now) == StoreOtpStep(s, OtpRecord(user, g, Some(tag)), now)
    ensures FindOtp(s.otps, g.message, None).None? ==>
              var t := StoreOtpStep(s, OtpRecord(user, g, None), now).otps;
              t[|t| - 1].kind.None? && t[|t| - 1].data == g.message && t[|t| - 1].code == g.code
              && t[|t| - 1].userId == Member(user, "id")
  {
  }
}
