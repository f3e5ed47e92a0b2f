/**
 * Refresh tokens: one record per issued token, usable while valid and unexpired, revoked one at
 * a time (logout) or all at once for a user (security reset), and counted as active sessions.
 */
module RefreshTokenModel {
  import opened Common
  import opened Errors
  import opened Constants

  datatype RefreshToken = RefreshToken(
    token: string,
    userId: UserId,
    userType: string,
    isValid: bool,
    expiresAt: nat,
    deviceInfo: string,
    revokedAt: Option<nat>,
    revokedBy: Option<UserId>,
    revokeReason: Option<string>)

  const LOGOUT_REASON: string := "User logout"
  const RESET_REASON: string := "Security reset"

  /** A token as issued at `now`: valid, no revocation, expiring REFRESH_TOKEN_HOURS later. */
  function IssuedToken(token: string, userId: UserId, userType: string, now: nat): (t: RefreshToken)
    ensures t.isValid && t.expiresAt == now + 48 * 60 * 60 * 1000
    ensures t.token == token && t.userId == userId && t.userType == userType && t.deviceInfo == "unknown"
    ensures t.revokedAt.None? && t.revokedBy.None? && t.revokeReason.None?
  {
    RefreshToken(token, userId, userType, true, now + REFRESH_TOKEN_MS, "unknown", None, None, None)
  }

  /** isUsable: valid and strictly before its expiry. */
  predicate IsUsable(t: RefreshToken, now: nat) {
    t.isValid && now < t.expiresAt
  }

  /** revoke(revokedBy, reason): the token is invalid from now on; the reason defaults to a logout. */
  function Revoke(t: RefreshToken, revokedBy: Option<UserId>, reason: Option<string>, now: nat): (u: RefreshToken)
    ensures !u.isValid && u.revokedAt == Some(now) && u.revokedBy == revokedBy
    ensures u.revokeReason == Some(if reason.Some? then reason.value else LOGOUT_REASON)
    ensures forall later :: !IsUsable(u, later)
    ensures u.(isValid := t.isValid, revokedAt := t.revokedAt, revokedBy := t.revokedBy, revokeReason := t.revokeReason) == t
  {
    t.(isValid := false, revokedAt := Some(now), revokedBy := revokedBy, revokeReason := Some(reason.GetOr(LOGOUT_REASON)))
  }

  /** One token of the updateMany of revokeAllForUser: the user's valid tokens are invalidated. */
  function RevokedForUser(t: RefreshToken, userId: UserId, reason: string, now: nat): (u: RefreshToken)
    ensures t.userId == userId && t.isValid ==>
              u == t.(isValid := false, revokedAt := Some(now), revokeReason := Some(reason))
    ensures !(t.userId == userId && t.isValid) ==> u == t
  {
    if t.userId == userId && t.isValid then t.(isValid := false, revokedAt := Some(now), revokeReason := Some(reason)) else t
  }

  /** The updateMany of revokeAllForUser over a whole collection. */
  function RevokeAll(tokens: map<RecordId, RefreshToken>, userId: UserId, reason: string, now: nat)
    : (after: map<RecordId, RefreshToken>)
    ensures after.Keys == tokens.Keys
    ensures forall id :: id in after ==> after[id] == RevokedForUser(tokens[id], userId, reason, now)
  {
    map id | id in tokens :: RevokedForUser(tokens[id], userId, reason, now)
  }

  /** The refresh-token collection, keyed by record id. */
  class TokenStore {
    var tokens: map<RecordId, RefreshToken>
    var nextId: RecordId

    ghost predicate Valid()
      reads this
    {
      && (forall id :: id in tokens ==> id < nextId)
      && (forall i, j :: i in tokens && j in tokens && tokens[i].token == tokens[j].token ==> i == j)
    }

    constructor ()
      ensures Valid() && tokens == map[]
    {
      tokens := map[];
      nextId := 0;
    }

    /** The ids of the user's tokens that are usable at `now` (the countDocuments query). */
    function ActiveSessions(userId: UserId, now: nat): (ids: set<RecordId>)
      reads this
      ensures forall id :: id in ids <==> id in tokens && tokens[id].userId == userId && IsUsable(tokens[id], now)
    {
      set id | id in tokens && tokens[id].userId == userId && IsUsable(tokens[id], now)
    }

    /** getActiveSessionsCount. */
    function ActiveSessionsCount(userId: UserId, now: nat): (n: nat)
      reads this
      ensures n == |ActiveSessions(userId, now)|
      ensures n <= |tokens|
      ensures n == 0 <==> forall id :: id in tokens && tokens[id].userId == userId ==> !IsUsable(tokens[id], now)
    {
      var ids := ActiveSessions(userId, now);
      assert ids <= tokens.Keys;
      SubsetSize(ids, tokens.Keys);
      |ids|
    }

    /** Whether some stored token already carries this token string. */
    predicate TokenTaken(token: string)
      reads this
    {
      exists id :: id in tokens && tokens[id].token == token
    }

    /**
     * RefreshToken.create with the default expiry: an empty token string (refused by `required`)
     * or a user type outside the role enum fails validation, a token string already stored is
     * refused by the unique index, and otherwise one new token is stored under a fresh id.
     */
    method Issue(token: string, userId: UserId, userType: string, now: nat) returns (r: Result<RecordId>)
      requires Valid()
      modifies this
      ensures Valid()
      ensures token == [] || userType !in {ADMIN, CLIENT, LAWYER} ==> r == Err(Validation)
      ensures token != [] && userType in {ADMIN, CLIENT, LAWYER} && old(TokenTaken(token)) ==> r == Err(Duplicate)
      ensures r.Ok? <==> token != [] && userType in {ADMIN, CLIENT, LAWYER} && !old(TokenTaken(token))
      ensures r.Err? ==> tokens == old(tokens)
      ensures r.Ok? ==> r.value !in old(tokens) && tokens == old(tokens)[r.value := IssuedToken(token, userId, userType, now)]
    {
      if token == [] || userType !in {ADMIN, CLIENT, LAWYER} {
        return Err(Validation);
      }
      if TokenTaken(token) {
        return Err(Duplicate);
      }
      var id := nextId;
      tokens := tokens[id := IssuedToken(token, userId, userType, now)];
      nextId := nextId + 1;
      return Ok(id);
    }

    /** `token.revoke(revokedBy, reason)` on a stored token. */
    method RevokeToken(id: RecordId, revokedBy: Option<UserId>, reason: Option<string>, now: nat)
      requires Valid() && id in tokens
      modifies this`tokens
      ensures Valid()
      ensures tokens == old(tokens)[id := Revoke(old(tokens[id]), revokedBy, reason, now)]
    {
      tokens := tokens[id := Revoke(tokens[id], revokedBy, reason, now)];
    }

    /** revokeAllForUser(userId, reason): every valid token of the user, and only those, is revoked. */
    method RevokeAllForUser(userId: UserId, reason: Option<string>, now: nat)
      requires Valid()
      modifies this`tokens
      ensures Valid()
      ensures tokens == RevokeAll(old(tokens), userId, reason.GetOr(RESET_REASON), now)
    {
      tokens := RevokeAll(tokens, userId, reason.GetOr(RESET_REASON), now);
    }

    /** cleanupExpired: the deleteMany of the tokens whose expiry is strictly before `now`. */
    method CleanupExpired(now: nat)
      requires Valid()
      modifies this`tokens
      ensures Valid()
      ensures tokens == map id | id in old(tokens) && old(tokens[id]).expiresAt >= now :: old(tokens[id])
    {
      tokens := map id | id in tokens && tokens[id].expiresAt >= now :: tokens[id];
    }
  }

  lemma {:induction false} SubsetSize<T>(a: set<T>, b: set<T>)
    requires a <= b
    ensures |a| <= |b|
  {
    if a != {} {
      var x :| x in a;
      SubsetSize(a - {x}, b - {x});
    }
  }

  /**
   * After a security reset the user has no active session left, while the tokens of every other
   * user, and therefore their session counts, are as they were.
   */
  lemma {:induction false} RevokeAllEndsSessions(tokens: map<RecordId, RefreshToken>, userId: UserId, reason: string,
                                                now: nat, later: nat, other: UserId)
    requires other != userId
    ensures var after := RevokeAll(tokens, userId, reason, now);
            && (forall id :: id in after && after[id].userId == userId ==> !IsUsable(after[id], later))
            && (forall id :: id in after && after[id].userId == other ==> after[id] == tokens[id])
            && (set id | id in after && after[id].userId == other && IsUsable(after[id], later))
               == (set id | id in tokens && tokens[id].userId == other && IsUsable(tokens[id], later))
  {
    var after := RevokeAll(tokens, userId, reason, now);
    forall id | id in after && after[id].userId == userId
      ensures !IsUsable(after[id], later)
    {
      if !tokens[id].isValid {
        assert after[id] == tokens[id];
      }
    }
  }
}
