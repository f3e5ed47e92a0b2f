/** A client's legal case: its enumerations, the schema a stored case satisfies, and the client query. */
module CaseModel {
  import opened Common
  import opened Errors

  datatype CaseStatus = CaseActive | CasePending | CaseAssigned | CaseCompleted | CaseCancelled
  datatype Urgency = Low | Medium | High | Urgent
  datatype BudgetRange = Budget25To50K | Budget50To100K | Budget100To200K | Budget200To500K | Budget500KPlus

  function CaseStatusName(s: CaseStatus): string {
    match s
    case CaseActive => "active"
    case CasePending => "pending"
    case CaseAssigned => "assigned"
    case CaseCompleted => "completed"
    case CaseCancelled => "cancelled"
  }

  /** `Object.values(CASE_STATUS).includes(s)`, returning the status named. */
  function ParseCaseStatus(s: string): (r: Option<CaseStatus>)
    ensures r.Some? ==> CaseStatusName(r.value) == s
  {
    if s == "active" then Some(CaseActive)
    else if s == "pending" then Some(CasePending)
    else if s == "assigned" then Some(CaseAssigned)
    else if s == "completed" then Some(CaseCompleted)
    else if s == "cancelled" then Some(CaseCancelled)
    else None
  }

  /** Every status is accepted under its own name and only under it. */
  lemma {:induction false} CaseStatusNamesRoundTrip(st: CaseStatus)
    ensures ParseCaseStatus(CaseStatusName(st)) == Some(st)
  {
    match st
    case CaseActive =>
    case CasePending =>
    case CaseAssigned =>
    case CaseCompleted =>
    case CaseCancelled =>
  }

  function ParseUrgency(s: string): Option<Urgency> {
    if s == "low" then Some(Low)
    else if s == "medium" then Some(Medium)
    else if s == "high" then Some(High)
    else if s == "urgent" then Some(Urgent)
    else None
  }

  function ParseBudgetRange(s: string): Option<BudgetRange> {
    if s == "25000-50000" then Some(Budget25To50K)
    else if s == "50000-100000" then Some(Budget50To100K)
    else if s == "100000-200000" then Some(Budget100To200K)
    else if s == "200000-500000" then Some(Budget200To500K)
    else if s == "500000+" then Some(Budget500KPlus)
    else None
  }

  /** The voice note attached at creation; its duration is always stored as null. */
  datatype VoiceNote = VoiceNote(publicId: BlobId, secureUrl: string)

  datatype Case = Case(
    clientId: UserId,
    title: string,
    description: string,
    voiceNote: Option<VoiceNote>,
    category: string,
    budgetRange: BudgetRange,
    province: string,
    district: string,
    court: Option<string>,
    urgency: Urgency,
    preferredLanguages: seq<string>,
    status: CaseStatus,
    assignedLawyerId: Option<UserId>,
    assignedAt: Option<nat>,
    proposalCount: int,
    invitationCount: int,
    createdAt: nat)

  /**
   * The request body a client posts. Every field is optional in the body; the last four are
   * schema fields the body may carry although no form offers them.
   */
  datatype CaseInput = CaseInput(
    title: Option<string>,
    description: Option<string>,
    category: Option<string>,
    budgetRange: Option<string>,
    province: Option<string>,
    district: Option<string>,
    court: Option<string>,
    urgency: Option<string>,
    preferredLanguages: seq<string>,
    assignedLawyerId: Option<UserId>,
    assignedAt: Option<nat>,
    proposalCount: Option<int>,
    invitationCount: Option<int>)

  /** A trimmed string the `required` validator accepts: non-empty after the trim setter ran. */
  predicate Required(v: Option<string>) {
    v.Some? && Trim(v.value) != ""
  }

  /** A required, trimmed field within its `maxlength`. */
  predicate RequiredWithin(v: Option<string>, max: nat) {
    Required(v) && |Trim(v.value)| <= max
  }

  /** Everything the case schema checks on save. */
  predicate ValidCaseInput(input: CaseInput) {
    && RequiredWithin(input.title, 200)
    && RequiredWithin(input.description, 2000)
    && Required(input.category)
    && input.budgetRange.Some? && ParseBudgetRange(input.budgetRange.value).Some?
    && Required(input.province)
    && Required(input.district)
    && (input.urgency.None? || ParseUrgency(input.urgency.value).Some?)
  }

  /** What every stored case satisfies: the schema's required, trimmed and bounded text fields. */
  predicate CaseSchema(c: Case) {
    && c.title != "" && IsTrimmed(c.title) && |c.title| <= 200
    && c.description != "" && IsTrimmed(c.description) && |c.description| <= 2000
    && c.category != "" && IsTrimmed(c.category)
    && c.province != "" && IsTrimmed(c.province)
    && c.district != "" && IsTrimmed(c.district)
  }

  /** Builds the stored document from a body that passed validation. */
  function MakeCase(input: CaseInput, clientId: UserId, voiceNote: Option<VoiceNote>, now: nat,
                    assignedLawyerId: Option<UserId>, assignedAt: Option<nat>,
                    proposalCount: int, invitationCount: int): (c: Case)
    requires ValidCaseInput(input)
    ensures CaseSchema(c)
    ensures c.status == CasePending && c.clientId == clientId && c.createdAt == now && c.voiceNote == voiceNote
    ensures c.title == Trim(input.title.value) && c.description == Trim(input.description.value)
    ensures input.urgency.None? ==> c.urgency == Medium
  {
    Case(
      clientId,
      Trim(input.title.value),
      Trim(input.description.value),
      voiceNote,
      Trim(input.category.value),
      ParseBudgetRange(input.budgetRange.value).value,
      Trim(input.province.value),
      Trim(input.district.value),
      if input.court.Some? then Some(Trim(input.court.value)) else None,
      if input.urgency.Some? then ParseUrgency(input.urgency.value).value else Medium,
      TrimAll(input.preferredLanguages),
      CasePending,
      assignedLawyerId,
      assignedAt,
      proposalCount,
      invitationCount,
      now)
  }

  /** The trim setter applied to every element of a string array. */
  function TrimAll(ss: seq<string>): (r: seq<string>)
    ensures |r| == |ss| && forall i :: 0 <= i < |ss| ==> r[i] == Trim(ss[i])
  {
    if ss == [] then [] else [Trim(ss[0])] + TrimAll(ss[1..])
  }

  /**
   * `new Case(payload).save()`: apply the trim setters and defaults, then validate. The
   * assignment and the two counters are whatever the caller passes.
   */
  function BuildCase(input: CaseInput, clientId: UserId, voiceNote: Option<VoiceNote>, now: nat,
                     assignedLawyerId: Option<UserId>, assignedAt: Option<nat>,
                     proposalCount: int, invitationCount: int): (r: Result<Case>)
    ensures r.Err? <==> !ValidCaseInput(input)
    ensures r.Err? ==> r.error == Validation
    ensures r.Ok? ==> r.value == MakeCase(input, clientId, voiceNote, now, assignedLawyerId, assignedAt, proposalCount, invitationCount)
  {
    if !ValidCaseInput(input) then Err(Validation)
    else Ok(MakeCase(input, clientId, voiceNote, now, assignedLawyerId, assignedAt, proposalCount, invitationCount))
  }

  /**
   * A new case as its schema defines one: pending, owned by the caller, unassigned and with
   * both counters at zero, whatever the request body says.
   */
  function NewCase(input: CaseInput, clientId: UserId, voiceNote: Option<VoiceNote>, now: nat): (r: Result<Case>)
    ensures r.Ok? <==> ValidCaseInput(input)
    ensures r.Ok? ==> CaseSchema(r.value) && r.value.status == CasePending && r.value.clientId == clientId
    ensures r.Ok? ==> r.value.assignedLawyerId.None? && r.value.assignedAt.None?
    ensures r.Ok? ==> r.value.proposalCount == 0 && r.value.invitationCount == 0
  {
    BuildCase(input, clientId, voiceNote, now, None, None, 0, 0)
  }

  /**
   * createCaseService as written: the body is spread into the new document and only
   * `clientId` and `status` are overridden, so the assignment and the counters come from the body.
   */
  function NewCaseAsWritten(input: CaseInput, clientId: UserId, voiceNote: Option<VoiceNote>, now: nat): (r: Result<Case>)
    ensures r.Ok? <==> ValidCaseInput(input)
    ensures r.Ok? ==> r.value.status == CasePending && r.value.clientId == clientId
    ensures r.Ok? ==> r.value.assignedLawyerId == input.assignedLawyerId
    ensures r.Ok? ==> r.value.invitationCount == input.invitationCount.GetOr(0)
  {
    BuildCase(input, clientId, voiceNote, now,
      input.assignedLawyerId, input.assignedAt,
      input.proposalCount.GetOr(0), input.invitationCount.GetOr(0))
  }

  /**
   * The two agree exactly on bodies that carry none of the four extra fields; any body that
   * passes validation and names a lawyer yields, as written, a case already assigned to that lawyer.
   */
  lemma {:induction false} AsWrittenDiffersOnlyByBody(input: CaseInput, clientId: UserId, voiceNote: Option<VoiceNote>, now: nat)
    ensures input.assignedLawyerId.None? && input.assignedAt.None?
            && input.proposalCount.GetOr(0) == 0 && input.invitationCount.GetOr(0) == 0
            ==> NewCaseAsWritten(input, clientId, voiceNote, now) == NewCase(input, clientId, voiceNote, now)
    ensures ValidCaseInput(input) && input.assignedLawyerId.Some?
            ==> NewCaseAsWritten(input, clientId, voiceNote, now).value.assignedLawyerId
                != NewCase(input, clientId, voiceNote, now).value.assignedLawyerId
  {
  }

  /** `if (status) query.status = status`: the empty string is falsy and filters nothing. */
  predicate MatchesStatusFilter(name: string, status: Option<string>) {
    !Truthy(status) || name == status.value
  }

  /** Case.findByClient: the client's cases, narrowed to one status when a status is given. */
  function FindByClient(cases: map<CaseId, Case>, clientId: UserId, status: Option<string>): (r: set<CaseId>)
    ensures forall id :: id in r ==> id in cases && cases[id].clientId == clientId
    ensures forall id :: id in r ==> MatchesStatusFilter(CaseStatusName(cases[id].status), status)
    ensures forall id :: (id in cases && cases[id].clientId == clientId
              && MatchesStatusFilter(CaseStatusName(cases[id].status), status)) ==> id in r
  {
    set id | id in cases && cases[id].clientId == clientId
               && MatchesStatusFilter(CaseStatusName(cases[id].status), status)
  }

  /** A status filter that names no case status finds nothing, and any filter finds a subset of the unfiltered query. */
  lemma {:induction false} FindByClientFilters(cases: map<CaseId, Case>, clientId: UserId, status: Option<string>)
    ensures FindByClient(cases, clientId, status) <= FindByClient(cases, clientId, None)
    ensures Truthy(status) && ParseCaseStatus(status.value).None? ==> FindByClient(cases, clientId, status) == {}
  {
    if Truthy(status) && ParseCaseStatus(status.value).None? {
      forall id | id in FindByClient(cases, clientId, status)
        ensures false
      {
        CaseStatusNamesRoundTrip(cases[id].status);
      }
    }
  }
}
