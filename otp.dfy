/** app/utils/otp_utils.py: codes live only in the cache, under
    "otp:" + mobile, and a successful check deletes them. */
module Otp {
  import opened Common
  import opened CacheStore
  import opened Schemas

  const Digits: string := "0123456789"

  /** The length `send_otp` asks for (the default of `generate_otp`). */
  const OtpLength: nat := 6

  /** `generate_otp(length)`: `length` draws from the ten digits. The random
      source is the parameter `pick`: draw `i` picks digit `pick(i) % 10`. */
  function GenerateOtp(length: nat, pick: nat -> nat): (code: string)
    ensures |code| == length
    ensures AllDigits(code)
  {
    seq(length, i requires 0 <= i => Digits[pick(i) % 10])
  }

  function DigitValue(c: char): nat
    requires IsDigit(c)
  {
    (c as int - '0' as int) as nat
  }

  /** Every digit string of the requested length is a possible draw. */
  lemma EveryCodeCanBeDrawn(code: string)
    requires AllDigits(code)
    ensures exists pick: nat -> nat :: GenerateOtp(|code|, pick) == code
  {
    var pick: nat -> nat := (i: nat) => if i < |code| then DigitValue(code[i]) else 0;
    var drawn := GenerateOtp(|code|, pick);
    forall i | 0 <= i < |code| ensures drawn[i] == code[i] {
      assert Digits[pick(i) % 10] == code[i];
    }
    assert drawn == code;
  }

  /** The cache key of a number's code. */
  function OtpKey(mobile: string): string
  {
    "otp:" + mobile
  }

  /** Distinct numbers have distinct keys. */
  lemma OtpKeyInjective(m1: string, m2: string)
    ensures OtpKey(m1) == OtpKey(m2) ==> m1 == m2
  {
    if OtpKey(m1) == OtpKey(m2) {
      assert m1 == OtpKey(m1)[4..];
      assert m2 == OtpKey(m2)[4..];
    }
  }

  /** `store_otp`: overwrite the number's code, expiring after
      `expirationMinutes * 60` seconds. */
  function StoreOtp(c: Cache, mobile: string, otp: string, expirationMinutes: int): (r: Cache)
    ensures c.up && expirationMinutes > 0 ==>
      r.entries == c.entries[OtpKey(mobile) := Entry(Text(otp), expirationMinutes * 60)]
    ensures !(c.up && expirationMinutes > 0) ==> r == c
    ensures r.up == c.up
  {
    Set(c, OtpKey(mobile), Text(otp), expirationMinutes * 60).1
  }

  /** `verify_otp`: true exactly when a non-empty stored code equals the one
      supplied; then the code is deleted. A failed check changes nothing. */
  function VerifyOtp(c: Cache, mobile: string, otp: string): (r: (bool, Cache))
    ensures r.0 <==> otp != "" && Get(c, OtpKey(mobile)) == Some(Text(otp))
    ensures r.0 ==> r.1 == c.(entries := c.entries - {OtpKey(mobile)})
    ensures !r.0 ==> r.1 == c
  {
    var stored := Get(c, OtpKey(mobile));
    if stored.Some? && stored.value.Text? && stored.value.s != "" && stored.value == Text(otp) then
      (true, Delete(c, OtpKey(mobile)).1)
    else
      (false, c)
  }

  /** A code verifies once: after a success, no second check for that number
      succeeds, whatever code it presents. */
  lemma VerifyIsSingleUse(c: Cache, mobile: string, otp: string, again: string)
    requires VerifyOtp(c, mobile, otp).0
    ensures !VerifyOtp(VerifyOtp(c, mobile, otp).1, mobile, again).0
  {
  }

  /** A stored non-empty code is accepted when presented, and any other code
      is refused and leaves the code in place. */
  lemma StoreThenVerify(c: Cache, mobile: string, otp: string, wrong: string, expirationMinutes: int)
    requires c.up && expirationMinutes > 0 && otp != "" && wrong != otp
    ensures VerifyOtp(StoreOtp(c, mobile, otp, expirationMinutes), mobile, otp).0
    ensures !VerifyOtp(StoreOtp(c, mobile, otp, expirationMinutes), mobile, wrong).0
  {
  }

  /** Storing or checking one number's code never touches another number's
      entry. */
  lemma OtherNumbersUntouched(c: Cache, mobile: string, other: string, otp: string, expirationMinutes: int)
    requires mobile != other
    ensures Get(StoreOtp(c, mobile, otp, expirationMinutes), OtpKey(other)) == Get(c, OtpKey(other))
    ensures Get(VerifyOtp(c, mobile, otp).1, OtpKey(other)) == Get(c, OtpKey(other))
  {
    OtpKeyInjective(mobile, other);
  }
}
