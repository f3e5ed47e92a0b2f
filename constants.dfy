/** The frozen lookup tables of the system: roles, permissions, OTP and token timing, phase keys. */
module Constants {
  import opened Common

  // ---------------------------------------------------------------- roles

  /** Roles travel as the strings the identity provider puts on a request. */
  const ADMIN: string := "admin"
  const CLIENT: string := "client"
  const LAWYER: string := "lawyer"

  // ---------------------------------------------------------------- OTP and token timing

  const OTP_EXPIRY_MINUTES: nat := 10
  const OTP_MAX_ATTEMPTS: nat := 3
  const OTP_RESEND_COOLDOWN_SECONDS: nat := 60
  const OTP_CODE_LENGTH: nat := 6

  const ACCESS_TOKEN_MINUTES: nat := 15
  const REFRESH_TOKEN_HOURS: nat := 48

  /** The same durations in milliseconds, the unit in which `now` is measured. */
  const OTP_EXPIRY_MS: nat := OTP_EXPIRY_MINUTES * 60 * 1000
  const OTP_COOLDOWN_MS: nat := OTP_RESEND_COOLDOWN_SECONDS * 1000
  const REFRESH_TOKEN_MS: nat := REFRESH_TOKEN_HOURS * 60 * 60 * 1000

  lemma TimingConstants()
    ensures OTP_MAX_ATTEMPTS == 3
    ensures OTP_COOLDOWN_MS == 60000
    ensures OTP_EXPIRY_MS == 600000
    ensures REFRESH_TOKEN_MS == 172800000
  {
  }

  // ---------------------------------------------------------------- languages

  /** LANGUAGES: English, Urdu, Punjabi, Sindhi and Pashto, by their two-letter codes. */
  const LANGUAGES: set<string> := {"en", "ur", "pa", "sd", "ps"}

  // ---------------------------------------------------------------- lawyer profile steps

  const LAWYER_PROFILE_STEPS_TOTAL: nat := 5

  /** LAWYER_STEP_PERCENTAGE: the completion percentage reached with each step. */
  const LAWYER_STEP_PERCENTAGE: map<int, nat> := map[1 := 20, 2 := 40, 3 := 60, 4 := 80, 5 := 100]

  lemma StepPercentageIsTwentyPerStep(i: int)
    ensures i in LAWYER_STEP_PERCENTAGE <==> 1 <= i <= LAWYER_PROFILE_STEPS_TOTAL
    ensures i in LAWYER_STEP_PERCENTAGE ==> LAWYER_STEP_PERCENTAGE[i] == 20 * i
  {
  }

  // ---------------------------------------------------------------- permissions

  const USERS_READ: string := "users.read"
  const USERS_WRITE: string := "users.write"
  const USERS_DELETE: string := "users.delete"
  const CLIENT_PROFILE_READ: string := "client.profile.read"
  const CLIENT_PROFILE_WRITE: string := "client.profile.write"
  const LAWYER_PROFILE_READ: string := "lawyer.profile.read"
  const LAWYER_PROFILE_WRITE: string := "lawyer.profile.write"
  const ADMIN_DASHBOARD: string := "admin.dashboard"
  const ADMIN_USERS_MANAGE: string := "admin.users.manage"
  const ADMIN_SETTINGS: string := "admin.settings"

  /** Object.values(PERMISSIONS), in declaration order. */
  const PERMISSIONS: seq<string> := [
    USERS_READ, USERS_WRITE, USERS_DELETE,
    CLIENT_PROFILE_READ, CLIENT_PROFILE_WRITE,
    LAWYER_PROFILE_READ, LAWYER_PROFILE_WRITE,
    ADMIN_DASHBOARD, ADMIN_USERS_MANAGE, ADMIN_SETTINGS]

  const ROLE_PERMISSIONS: map<string, seq<string>> := map[
    ADMIN := PERMISSIONS,
    CLIENT := [CLIENT_PROFILE_READ, CLIENT_PROFILE_WRITE],
    LAWYER := [LAWYER_PROFILE_READ, LAWYER_PROFILE_WRITE]]

  /** `ROLE_PERMISSIONS[role] || []`: an unknown role holds no permission. */
  function PermissionsOf(role: string): (ps: seq<string>)
    ensures role !in ROLE_PERMISSIONS ==> ps == []
    ensures forall p :: p in ps ==> p in PERMISSIONS
  {
    if role in ROLE_PERMISSIONS then ROLE_PERMISSIONS[role] else []
  }

  /** The admin holds every permission; a client or a lawyer holds only read and write of its own profile kind. */
  lemma RolePermissionTable(p: string)
    ensures p in PERMISSIONS ==> p in PermissionsOf(ADMIN)
    ensures p in PermissionsOf(CLIENT) <==> p == CLIENT_PROFILE_READ || p == CLIENT_PROFILE_WRITE
    ensures p in PermissionsOf(LAWYER) <==> p == LAWYER_PROFILE_READ || p == LAWYER_PROFILE_WRITE
  {
  }

  // ---------------------------------------------------------------- timeline phases

  datatype PhaseKey = CaseIntake | CaseFiled | TrialPreparation | CourtHearing | CaseOutcome
  datatype PhaseStatus = Pending | Ongoing | Completed
  datatype OutcomeType = Won | Settled | Dismissed

  /** Position of a phase in the fixed order 1 -> 2 -> 3 -> 4 -> 5. */
  function Rank(k: PhaseKey): (r: nat)
    ensures 1 <= r <= 5
  {
    match k
    case CaseIntake => 1
    case CaseFiled => 2
    case TrialPreparation => 3
    case CourtHearing => 4
    case CaseOutcome => 5
  }

  /** The phase standing at a position of the fixed order. */
  function PhaseAt(r: nat): (k: PhaseKey)
    requires 1 <= r <= 5
    ensures Rank(k) == r
  {
    if r == 1 then CaseIntake
    else if r == 2 then CaseFiled
    else if r == 3 then TrialPreparation
    else if r == 4 then CourtHearing
    else CaseOutcome
  }

  lemma RankIsInjective(j: PhaseKey, k: PhaseKey)
    ensures Rank(j) == Rank(k) ==> j == k
  {
  }

  /** NEXT_PHASE_MAP: the phase unlocked when a phase completes; none after the outcome phase. */
  function NextPhase(k: PhaseKey): (n: Option<PhaseKey>)
    ensures n.None? <==> k == CaseOutcome
    ensures n.Some? ==> Rank(n.value) == Rank(k) + 1
  {
    match k
    case CaseIntake => Some(CaseFiled)
    case CaseFiled => Some(TrialPreparation)
    case TrialPreparation => Some(CourtHearing)
    case CourtHearing => Some(CaseOutcome)
    case CaseOutcome => None
  }

  /**
   * The phases reached by unlocking repeatedly from `k`. Following NEXT_PHASE_MAP terminates:
   * it visits every later phase exactly once, in order, and stops at the outcome phase.
   */
  function UnlockChain(k: PhaseKey): (ks: seq<PhaseKey>)
    decreases 5 - Rank(k)
    ensures |ks| == 6 - Rank(k)
    ensures ks[0] == k && ks[|ks| - 1] == CaseOutcome
    ensures forall i :: 0 <= i < |ks| ==> Rank(ks[i]) == Rank(k) + i
  {
    match NextPhase(k)
    case None => [k]
    case Some(n) => [k] + UnlockChain(n)
  }

  /** PHASE_SLUG_MAP: the route slugs naming each phase. */
  const PHASE_SLUG_MAP: map<string, PhaseKey> := map[
    "case-intake" := CaseIntake,
    "case-filed" := CaseFiled,
    "trial-preparation" := TrialPreparation,
    "court-hearing" := CourtHearing,
    "case-outcome" := CaseOutcome]

  /** The slug of a phase, as the timeline view reports it. */
  function Slug(k: PhaseKey): string {
    match k
    case CaseIntake => "case-intake"
    case CaseFiled => "case-filed"
    case TrialPreparation => "trial-preparation"
    case CourtHearing => "court-hearing"
    case CaseOutcome => "case-outcome"
  }

  /** `PHASE_SLUG_MAP[slug]`, which is undefined for any other string. */
  function PhaseOfSlug(slug: string): (k: Option<PhaseKey>)
    ensures k.Some? <==> slug in PHASE_SLUG_MAP
  {
    if slug in PHASE_SLUG_MAP then Some(PHASE_SLUG_MAP[slug]) else None
  }

  /** The slug table is a bijection between exactly five slugs and the five phase keys. */
  lemma {:induction false} SlugTableIsBijective(slug: string, k: PhaseKey)
    ensures PhaseOfSlug(Slug(k)) == Some(k)
    ensures PhaseOfSlug(slug) == Some(k) ==> slug == Slug(k)
    ensures |PHASE_SLUG_MAP| == 5
  {
    var keys := {"case-intake", "case-filed", "trial-preparation", "court-hearing", "case-outcome"};
    assert PHASE_SLUG_MAP.Keys == keys;
    assert |keys| == 5;
  }

  /** OUTCOME_TYPE membership of the submitted outcome (`!outcome || !includes(outcome)` rejects). */
  function ParseOutcome(s: Option<string>): (o: Option<OutcomeType>)
    ensures o.Some? <==> s == Some("won") || s == Some("settled") || s == Some("dismissed")
  {
    if s == Some("won") then Some(Won)
    else if s == Some("settled") then Some(Settled)
    else if s == Some("dismissed") then Some(Dismissed)
    else None
  }
}
