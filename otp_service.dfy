/**
 * The OTP service: generation (cooldown, invalidation of the earlier codes, one new record) and
 * verification (attempt counting, lock-out at the cap, single use of a correct code). The random
 * code, the hashing of stored codes and the e-mail or SMS delivery are not part of the model: the
 * code arrives as a parameter and is stored and compared as its decimal string.
 */
module OtpService {
  import opened Common
  import opened Errors
  import opened Constants
  import opened OtpModel

  const EXPIRED_OR_INVALID: string := "OTP expired or invalid. Please request a new one."
  const MAX_ATTEMPTS_EXCEEDED: string := "Maximum attempts exceeded. Please request a new OTP."
  const INVALID_OTP: string := "Invalid OTP"

  // ---------------------------------------------------------------- decimal strings

  function Digit(d: nat): (c: char)
    requires d < 10
    ensures '0' <= c <= '9' && c as int - '0' as int == d
  {
    ('0' as int + d) as char
  }

  /** `String(n)` for a natural number: its decimal digits, most significant first. */
  function NatToString(n: nat): (s: string)
    ensures |s| >= 1 && forall i :: 0 <= i < |s| ==> '0' <= s[i] <= '9'
  {
    if n < 10 then [Digit(n)] else NatToString(n / 10) + [Digit(n % 10)]
  }

  /** The value of a string of decimal digits. */
  function DigitsValue(s: string): (n: nat)
    requires forall i :: 0 <= i < |s| ==> '0' <= s[i] <= '9'
  {
    if s == [] then 0 else 10 * DigitsValue(s[..|s| - 1]) + (s[|s| - 1] as int - '0' as int)
  }

  /** Reading the digits back gives the number: distinct codes have distinct strings. */
  lemma {:induction false} NatToStringRoundTrip(n: nat)
    ensures DigitsValue(NatToString(n)) == n
  {
    var s := NatToString(n);
    if n >= 10 {
      NatToStringRoundTrip(n / 10);
      assert s[..|s| - 1] == NatToString(n / 10);
    }
  }

  function Pow10(k: nat): (p: nat)
    ensures p >= 1
  {
    if k == 0 then 1 else 10 * Pow10(k - 1)
  }

  /** A number with k digits is written with exactly k characters. */
  lemma {:induction false} NatToStringLength(n: nat, k: nat)
    requires 1 <= k && Pow10(k - 1) <= n < Pow10(k)
    ensures |NatToString(n)| == k
  {
    if k > 1 {
      assert Pow10(k - 1) == 10 * Pow10(k - 2);
      assert Pow10(k - 2) <= n / 10 < Pow10(k - 1);
      NatToStringLength(n / 10, k - 1);
    }
  }

  /** `crypto.randomInt(100000, 999999).toString()` is a six-digit string. */
  lemma {:induction false} CodeHasSixDigits(code: nat)
    requires 100000 <= code < 999999
    ensures |NatToString(code)| == OTP_CODE_LENGTH
  {
    assert Pow10(5) == 100000 && Pow10(6) == 1000000;
    NatToStringLength(code, 6);
  }

  // ---------------------------------------------------------------- generateAndSendOtp

  /**
   * The cooldown `findOne`: the first record of the triple created less than the cooldown before
   * `now`, if there is one.
   */
  function RecentOtp(rs: seq<Otp>, userId: UserId, purpose: string, channel: string, now: nat): (r: Option<nat>)
    ensures r.Some? ==> r.value < |rs| && OfTriple(rs[r.value], userId, purpose, channel)
                        && rs[r.value].createdAt + OTP_COOLDOWN_MS > now
    ensures r.Some? ==> forall j :: 0 <= j < r.value ==>
                          !(OfTriple(rs[j], userId, purpose, channel) && rs[j].createdAt + OTP_COOLDOWN_MS > now)
    ensures r.None? <==> forall j :: 0 <= j < |rs| ==>
                          !(OfTriple(rs[j], userId, purpose, channel) && rs[j].createdAt + OTP_COOLDOWN_MS > now)
  {
    if rs == [] then None
    else if OfTriple(rs[0], userId, purpose, channel) && rs[0].createdAt + OTP_COOLDOWN_MS > now then Some(0)
    else
      match RecentOtp(rs[1..], userId, purpose, channel, now)
      case None => None
      case Some(i) => Some(i + 1)
  }

  /** The whole seconds (rounded up) the caller is told to wait; between 1 and 60 for a past record. */
  function WaitSeconds(createdAt: nat, now: nat): (s: nat)
    requires createdAt + OTP_COOLDOWN_MS > now
    ensures s >= 1
    ensures createdAt <= now ==> s <= 60
  {
    (OTP_COOLDOWN_MS - (now - createdAt) + 999) / 1000
  }

  function WaitMessage(seconds: nat): string {
    "Please wait " + NatToString(seconds) + " seconds before requesting a new OTP"
  }

  /** The updateMany of generation: every record of the triple is marked used, whatever its state. */
  function MarkAllUsed(rs: seq<Otp>, userId: UserId, purpose: string, channel: string): (after: seq<Otp>)
    ensures |after| == |rs|
    ensures forall i :: 0 <= i < |rs| && OfTriple(rs[i], userId, purpose, channel) ==> after[i] == rs[i].(isUsed := true)
    ensures forall i :: 0 <= i < |rs| && !OfTriple(rs[i], userId, purpose, channel) ==> after[i] == rs[i]
  {
    seq(|rs|, i requires 0 <= i < |rs| => if OfTriple(rs[i], userId, purpose, channel) then rs[i].(isUsed := true) else rs[i])
  }

  datatype Generated = Generated(expiresAt: nat, channel: string)

  /**
   * generateAndSendOtpService. A code of the triple created within the cooldown refuses the
   * request and changes nothing. Otherwise every earlier code of the triple is marked used, and
   * then one new record is created; when the new record fails its validators (an unknown
   * purpose, channel or user type, an empty target) the creation is refused, but the earlier
   * codes stay used.
   */
  method GenerateOtp(store: OtpStore, userId: UserId, target: string, channel: string, purpose: string,
                     userType: string, code: nat, now: nat)
    returns (r: Result<Generated>)
    requires store.Valid() && 100000 <= code < 999999
    modifies store
    ensures store.Valid()
    ensures RecentOtp(old(store.records), userId, purpose, channel, now).Some? ==>
              var i := RecentOtp(old(store.records), userId, purpose, channel, now).value;
              && r == Err(BadRequest(WaitMessage(WaitSeconds(old(store.records)[i].createdAt, now))))
              && store.records == old(store.records)
    ensures RecentOtp(old(store.records), userId, purpose, channel, now).None? ==>
              var marked := MarkAllUsed(old(store.records), userId, purpose, channel);
              var created := NewOtp(userId, userType, NatToString(code), purpose, channel, target, now);
              && (ValidOtp(created) ==> r == Ok(Generated(now + OTP_EXPIRY_MS, channel)) && store.records == marked + [created])
              && (!ValidOtp(created) ==> r == Err(Validation) && store.records == marked)
  {
    var recent := RecentOtp(store.records, userId, purpose, channel, now);
    if recent.Some? {
      var createdAt := store.records[recent.value].createdAt;
      return Err(BadRequest(WaitMessage(WaitSeconds(createdAt, now))));
    }
    store.records := MarkAllUsed(store.records, userId, purpose, channel);
    var created := NewOtp(userId, userType, NatToString(code), purpose, channel, target, now);
    if !ValidOtp(created) {
      return Err(Validation);
    }
    store.records := store.records + [created];
    return Ok(Generated(created.expiresAt, channel));
  }

  /**
   * After a successful generation the new code is the only unused one of its triple, and a second
   * request for the triple within the cooldown is refused.
   */
  lemma {:induction false} GenerationLeavesOneLiveCode(rs: seq<Otp>, userId: UserId, target: string, channel: string,
                                                      purpose: string, userType: string, code: nat, now: nat, later: nat)
    requires now <= later < now + OTP_COOLDOWN_MS
    ensures var after := MarkAllUsed(rs, userId, purpose, channel) + [NewOtp(userId, userType, NatToString(code), purpose, channel, target, now)];
            && (forall i :: 0 <= i < |after| && OfTriple(after[i], userId, purpose, channel) && !after[i].isUsed ==> i == |rs|)
            && RecentOtp(after, userId, purpose, channel, later).Some?
  {
    var marked := MarkAllUsed(rs, userId, purpose, channel);
    var created := NewOtp(userId, userType, NatToString(code), purpose, channel, target, now);
    var after := marked + [created];
    assert after[|rs|] == created;
  }

  // ---------------------------------------------------------------- verifyOtp

  /** The verification `findOne`: the first unused, unexpired record of the user for the purpose. */
  function FindLive(rs: seq<Otp>, userId: UserId, purpose: string, now: nat): (r: Option<nat>)
    ensures r.Some? ==> r.value < |rs| && rs[r.value].userId == userId && rs[r.value].purpose == purpose
                        && !rs[r.value].isUsed && rs[r.value].expiresAt > now
    ensures r.Some? ==> forall j :: 0 <= j < r.value ==>
                          !(rs[j].userId == userId && rs[j].purpose == purpose && !rs[j].isUsed && rs[j].expiresAt > now)
    ensures r.None? <==> forall j :: 0 <= j < |rs| ==>
                          !(rs[j].userId == userId && rs[j].purpose == purpose && !rs[j].isUsed && rs[j].expiresAt > now)
  {
    if rs == [] then None
    else if rs[0].userId == userId && rs[0].purpose == purpose && !rs[0].isUsed && rs[0].expiresAt > now then Some(0)
    else
      match FindLive(rs[1..], userId, purpose, now)
      case None => None
      case Some(i) => Some(i + 1)
  }

  /** A wrong guess: one more attempt, and the record is used up once the attempts reach the cap. */
  function WrongGuess(o: Otp): (p: Otp)
    ensures p.attempts == o.attempts + 1
    ensures p.isUsed <==> o.isUsed || p.attempts >= OTP_MAX_ATTEMPTS
    ensures p.(attempts := o.attempts, isUsed := o.isUsed) == o
  {
    var bumped := o.(attempts := o.attempts + 1);
    if IsMaxAttemptsReached(bumped) then bumped.(isUsed := true) else bumped
  }

  /**
   * verifyOtpService. With no live record of the user for the purpose the code is refused and
   * nothing changes. A wrong code costs the record one attempt; the attempt that reaches the cap
   * also uses the record up. A correct code uses the record up and returns it.
   */
  method VerifyOtp(store: OtpStore, userId: UserId, candidate: string, purpose: string, now: nat)
    returns (r: Result<Otp>)
    requires store.Valid()
    modifies store
    ensures store.Valid()
    ensures FindLive(old(store.records), userId, purpose, now).None? ==>
              r == Err(BadRequest(EXPIRED_OR_INVALID)) && store.records == old(store.records)
    ensures FindLive(old(store.records), userId, purpose, now).Some? ==>
              var i := FindLive(old(store.records), userId, purpose, now).value;
              var o := old(store.records)[i];
              && (candidate == o.code ==>
                    r == Ok(o.(isUsed := true)) && store.records == old(store.records)[i := o.(isUsed := true)])
              && (candidate != o.code ==>
                    && store.records == old(store.records)[i := WrongGuess(o)]
                    && r == Err(BadRequest(if WrongGuess(o).isUsed then MAX_ATTEMPTS_EXCEEDED else INVALID_OTP)))
  {
    var found := FindLive(store.records, userId, purpose, now);
    if found.None? {
      return Err(BadRequest(EXPIRED_OR_INVALID));
    }
    var i := found.value;
    var o := store.records[i];
    if candidate != o.code {
      var guessed := WrongGuess(o);
      store.records := store.records[i := guessed];
      if guessed.isUsed {
        return Err(BadRequest(MAX_ATTEMPTS_EXCEEDED));
      }
      return Err(BadRequest(INVALID_OTP));
    }
    var used := o.(isUsed := true);
    store.records := store.records[i := used];
    return Ok(used);
  }

  /**
   * A record admits at most OTP_MAX_ATTEMPTS wrong guesses: the guess that brings it to the cap
   * uses it up, after which no verification finds it again. The same holds for a record whose
   * correct code was accepted, so a code works once.
   */
  lemma {:induction false} UsedRecordIsNeverFoundAgain(rs: seq<Otp>, i: nat, o: Otp, userId: UserId, purpose: string, now: nat)
    requires i < |rs| && o.isUsed
    ensures FindLive(rs[i := o], userId, purpose, now) != Some(i)
  {
  }

  /** Three wrong guesses in a row on a fresh code use it up. */
  lemma {:induction false} ThirdWrongGuessLocks(o: Otp)
    requires o.attempts == 0 && !o.isUsed
    ensures !WrongGuess(o).isUsed && !WrongGuess(WrongGuess(o)).isUsed
    ensures WrongGuess(WrongGuess(WrongGuess(o))).isUsed
  {
  }
}
