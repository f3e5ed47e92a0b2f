/**
 * One-time passwords: the stored record, its expiry, attempt and resend-cooldown checks, and the
 * collection they live in (in insertion order, the order a `findOne` scans).
 */
module OtpModel {
  import opened Common
  import opened Constants

  datatype Otp = Otp(
    userId: UserId,
    userType: string,
    code: string,
    purpose: string,
    channel: string,
    target: string,
    expiresAt: nat,
    attempts: nat,
    isUsed: bool,
    usedAt: Option<nat>,
    lastResentAt: Option<nat>,
    resendCount: nat,
    createdAt: nat)

  /** OTP_PURPOSE and OTP_TYPE, the enums of the `purpose` and `type` fields. */
  const OTP_PURPOSES: set<string> := {"registration", "password_reset", "email_change", "phone_change"}
  const OTP_CHANNELS: set<string> := {"email", "phone"}

  /** The record OTP.create stores at `now`: unused, no attempt yet, expiring OTP_EXPIRY_MINUTES later. */
  function NewOtp(userId: UserId, userType: string, code: string, purpose: string, channel: string, target: string,
                  now: nat): (o: Otp)
    ensures o.expiresAt == now + 10 * 60 * 1000 && o.createdAt == now
    ensures o.attempts == 0 && !o.isUsed && o.usedAt.None? && o.lastResentAt.None? && o.resendCount == 0
    ensures o.userId == userId && o.userType == userType && o.code == code
    ensures o.purpose == purpose && o.channel == channel && o.target == target
  {
    Otp(userId, userType, code, purpose, channel, target, now + OTP_EXPIRY_MS, 0, false, None, None, 0, now)
  }

  /** The validators OTP.create and save run: the enums, the required strings and the attempts cap. */
  predicate ValidOtp(o: Otp) {
    && o.userType in {CLIENT, LAWYER, ADMIN}
    && o.purpose in OTP_PURPOSES && o.channel in OTP_CHANNELS
    && o.code != "" && o.target != ""
    && o.attempts <= OTP_MAX_ATTEMPTS
  }

  /** isExpired: strictly past the expiry instant. */
  predicate IsExpired(o: Otp, now: nat) {
    now > o.expiresAt
  }

  /** isMaxAttemptsReached. */
  predicate IsMaxAttemptsReached(o: Otp) {
    o.attempts >= OTP_MAX_ATTEMPTS
  }

  /** canResend: never resent, or the cooldown has fully elapsed since the last resend. */
  predicate CanResend(o: Otp, now: nat) {
    o.lastResentAt.None? || now - o.lastResentAt.value >= OTP_COOLDOWN_MS
  }

  /**
   * getRemainingCooldown: the whole seconds (rounded up) left of the cooldown, 0 when a resend is
   * allowed. When the last resend is not in the future it never exceeds the 60-second cooldown.
   */
  function RemainingCooldown(o: Otp, now: nat): (s: nat)
    ensures s == 0 <==> CanResend(o, now)
    ensures s > 0 ==> 1000 * (s - 1) < OTP_COOLDOWN_MS - (now - o.lastResentAt.value) <= 1000 * s
    ensures o.lastResentAt.Some? && o.lastResentAt.value <= now ==> s <= 60
  {
    if o.lastResentAt.None? then 0
    else
      var remaining := OTP_COOLDOWN_MS - (now - o.lastResentAt.value);
      if remaining > 0 then (remaining + 999) / 1000 else 0
  }

  /** Whether a record belongs to the (user, purpose, channel) triple. */
  predicate OfTriple(o: Otp, userId: UserId, purpose: string, channel: string) {
    o.userId == userId && o.purpose == purpose && o.channel == channel
  }

  /** The updateMany of invalidatePrevious: the triple's unused records become used now. */
  function InvalidatedPrevious(rs: seq<Otp>, userId: UserId, purpose: string, channel: string, now: nat): (after: seq<Otp>)
    ensures |after| == |rs|
    ensures forall i :: 0 <= i < |rs| && OfTriple(rs[i], userId, purpose, channel) && !rs[i].isUsed ==>
              after[i] == rs[i].(isUsed := true, usedAt := Some(now))
    ensures forall i :: 0 <= i < |rs| && !(OfTriple(rs[i], userId, purpose, channel) && !rs[i].isUsed) ==>
              after[i] == rs[i]
  {
    seq(|rs|, i requires 0 <= i < |rs| =>
      if OfTriple(rs[i], userId, purpose, channel) && !rs[i].isUsed then rs[i].(isUsed := true, usedAt := Some(now)) else rs[i])
  }

  /** After invalidatePrevious no record of the triple is unused, and no record of another triple changed. */
  lemma {:induction false} InvalidatePreviousLeavesNoneUnused(rs: seq<Otp>, userId: UserId, purpose: string, channel: string,
                                                             now: nat)
    ensures var after := InvalidatedPrevious(rs, userId, purpose, channel, now);
            && (forall i :: 0 <= i < |after| && OfTriple(after[i], userId, purpose, channel) ==> after[i].isUsed)
            && (forall i :: 0 <= i < |after| && !OfTriple(rs[i], userId, purpose, channel) ==> after[i] == rs[i])
  {
    var after := InvalidatedPrevious(rs, userId, purpose, channel, now);
    forall i | 0 <= i < |after| && OfTriple(after[i], userId, purpose, channel)
      ensures after[i].isUsed
    {
      if rs[i].isUsed {
        assert after[i] == rs[i];
      }
    }
  }

  /**
   * The OTP collection. Every stored record passes its validators, and a record still unused has
   * attempts left (the verification marks it used on the attempt that reaches the cap).
   */
  class OtpStore {
    var records: seq<Otp>

    ghost predicate Valid()
      reads this
    {
      forall i :: 0 <= i < |records| ==> ValidOtp(records[i]) && (!records[i].isUsed ==> !IsMaxAttemptsReached(records[i]))
    }

    constructor ()
      ensures Valid() && records == []
    {
      records := [];
    }

    /** OTP.invalidatePrevious(userId, purpose, type). */
    method InvalidatePrevious(userId: UserId, purpose: string, channel: string, now: nat)
      requires Valid()
      modifies this
      ensures Valid()
      ensures records == InvalidatedPrevious(old(records), userId, purpose, channel, now)
    {
      records := InvalidatedPrevious(records, userId, purpose, channel, now);
    }
  }
}
