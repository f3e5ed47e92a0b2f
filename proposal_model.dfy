/** A lawyer's proposal for a case: its status, fee structure, schema and the party queries. */
module ProposalModel {
  import opened Common
  import opened Errors

  datatype ProposalStatus = PropPending | PropViewed | PropAccepted | PropRejected | PropWithdrawn

  function ProposalStatusName(s: ProposalStatus): string {
    match s
    case PropPending => "pending"
    case PropViewed => "viewed"
    case PropAccepted => "accepted"
    case PropRejected => "rejected"
    case PropWithdrawn => "withdrawn"
  }

  /** `Object.values(PROPOSAL_STATUS).includes(s)`, returning the status named. */
  function ParseProposalStatus(s: string): (r: Option<ProposalStatus>)
    ensures r.Some? ==> ProposalStatusName(r.value) == s
  {
    if s == "pending" then Some(PropPending)
    else if s == "viewed" then Some(PropViewed)
    else if s == "accepted" then Some(PropAccepted)
    else if s == "rejected" then Some(PropRejected)
    else if s == "withdrawn" then Some(PropWithdrawn)
    else None
  }

  lemma {:induction false} ProposalStatusNamesRoundTrip(st: ProposalStatus)
    ensures ParseProposalStatus(ProposalStatusName(st)) == Some(st)
  {
    match st
    case PropPending =>
    case PropViewed =>
    case PropAccepted =>
    case PropRejected =>
    case PropWithdrawn =>
  }

  datatype FeeStructure = FeeStructure(
    totalProposedFee: int,
    initialConsultation: int,
    documentationFee: int,
    courtFees: int,
    additionalCosts: int,
    expectedDate: string)

  /** The fee block of a request body, every field optional. */
  datatype FeeInput = FeeInput(
    totalProposedFee: Option<int>,
    initialConsultation: Option<int>,
    documentationFee: Option<int>,
    courtFees: Option<int>,
    additionalCosts: Option<int>,
    expectedDate: Option<string>)

  /** The request body of a proposal; `caseId` names the case it is for. */
  datatype ProposalInput = ProposalInput(
    caseId: CaseId,
    caseAssessment: Option<string>,
    servicesIncluded: Option<string>,
    experienceAndQualifications: Option<string>,
    feeStructure: Option<FeeInput>,
    milestones: Option<string>,
    termsAndConditions: Option<string>,
    availability: Option<string>)

  datatype Proposal = Proposal(
    caseId: CaseId,
    lawyerId: UserId,
    clientId: UserId,
    caseAssessment: string,
    servicesIncluded: Option<string>,
    experienceAndQualifications: Option<string>,
    feeStructure: Option<FeeStructure>,
    milestones: Option<string>,
    termsAndConditions: Option<string>,
    availability: Option<string>,
    status: ProposalStatus,
    viewedAt: Option<nat>,
    respondedAt: Option<nat>,
    responseNote: Option<string>,
    createdAt: nat)

  /** An optional trimmed field within its `maxlength`. */
  predicate OptionalWithin(v: Option<string>, max: nat) {
    v.None? || |Trim(v.value)| <= max
  }

  function TrimOpt(v: Option<string>): (r: Option<string>)
    ensures r.Some? <==> v.Some?
    ensures r.Some? ==> r.value == Trim(v.value)
  {
    if v.Some? then Some(Trim(v.value)) else None
  }

  /** The fee sub-schema: the total and the expected date are required (the date is not trimmed). */
  predicate ValidFeeInput(f: FeeInput) {
    f.totalProposedFee.Some? && f.expectedDate.Some? && f.expectedDate.value != ""
  }

  /** The fee block stored for a valid input: the four optional amounts default to 0. */
  function Fees(f: FeeInput): (r: FeeStructure)
    requires ValidFeeInput(f)
    ensures r.totalProposedFee == f.totalProposedFee.value && r.expectedDate == f.expectedDate.value
    ensures f.initialConsultation.None? ==> r.initialConsultation == 0
    ensures f.documentationFee.None? ==> r.documentationFee == 0
    ensures f.courtFees.None? ==> r.courtFees == 0
    ensures f.additionalCosts.None? ==> r.additionalCosts == 0
  {
    FeeStructure(
      f.totalProposedFee.value,
      f.initialConsultation.GetOr(0),
      f.documentationFee.GetOr(0),
      f.courtFees.GetOr(0),
      f.additionalCosts.GetOr(0),
      f.expectedDate.value)
  }

  /** Everything the proposal schema checks when a new proposal is saved. */
  predicate ValidProposalInput(input: ProposalInput) {
    && input.caseAssessment.Some? && Trim(input.caseAssessment.value) != ""
    && |Trim(input.caseAssessment.value)| <= 2000
    && OptionalWithin(input.servicesIncluded, 2000)
    && OptionalWithin(input.experienceAndQualifications, 2000)
    && OptionalWithin(input.milestones, 500)
    && OptionalWithin(input.termsAndConditions, 3000)
    && OptionalWithin(input.availability, 500)
    && (input.feeStructure.None? || ValidFeeInput(input.feeStructure.value))
  }

  /** What a stored proposal satisfies: a non-empty bounded assessment and a bounded response note. */
  predicate ProposalSchema(p: Proposal) {
    && p.caseAssessment != "" && |p.caseAssessment| <= 2000
    && (p.responseNote.Some? ==> |p.responseNote.value| <= 500)
  }

  /**
   * `new Proposal({...body, lawyerId, clientId, status: pending}).save()`: a pending proposal
   * carrying the trimmed body, or a validation error when the schema refuses it.
   */
  function NewProposal(input: ProposalInput, lawyerId: UserId, clientId: UserId, now: nat): (r: Result<Proposal>)
    ensures r.Ok? <==> ValidProposalInput(input)
    ensures r.Err? ==> r.error == Validation
    ensures r.Ok? ==> ProposalSchema(r.value)
    ensures r.Ok? ==> r.value.caseId == input.caseId && r.value.lawyerId == lawyerId && r.value.clientId == clientId
    ensures r.Ok? ==> r.value.status == PropPending && r.value.viewedAt.None? && r.value.respondedAt.None? && r.value.responseNote.None?
    ensures r.Ok? ==> r.value.caseAssessment == Trim(input.caseAssessment.value)
    ensures r.Ok? ==> (r.value.feeStructure.Some? <==> input.feeStructure.Some?)
  {
    if !ValidProposalInput(input) then Err(Validation)
    else
      Ok(Proposal(
        input.caseId, lawyerId, clientId,
        Trim(input.caseAssessment.value),
        TrimOpt(input.servicesIncluded),
        TrimOpt(input.experienceAndQualifications),
        if input.feeStructure.Some? then Some(Fees(input.feeStructure.value)) else None,
        TrimOpt(input.milestones),
        TrimOpt(input.termsAndConditions),
        TrimOpt(input.availability),
        PropPending, None, None, None, now))
  }

  /** markAsViewed: a pending proposal becomes viewed at `now`; any other is returned as it was. */
  function MarkAsViewed(p: Proposal, now: nat): (r: Proposal)
    ensures p.status == PropPending ==> r == p.(status := PropViewed, viewedAt := Some(now))
    ensures p.status != PropPending ==> r == p
  {
    if p.status == PropPending then p.(status := PropViewed, viewedAt := Some(now)) else p
  }

  lemma {:induction false} MarkAsViewedIsIdempotent(p: Proposal, t1: nat, t2: nat)
    ensures MarkAsViewed(MarkAsViewed(p, t1), t2) == MarkAsViewed(p, t1)
    ensures MarkAsViewed(p, t1).status != PropPending
  {
  }

  /** `if (status) query.status = status`: the empty string is falsy and filters nothing. */
  predicate MatchesStatusFilter(name: string, status: Option<string>) {
    !Truthy(status) || name == status.value
  }

  /** Proposal.findByClient: the client's proposals, narrowed to one status when a status is given. */
  function FindByClient(proposals: map<RecordId, Proposal>, clientId: UserId, status: Option<string>): (r: set<RecordId>)
    ensures forall id :: id in r ==> id in proposals && proposals[id].clientId == clientId
    ensures forall id :: id in r ==> MatchesStatusFilter(ProposalStatusName(proposals[id].status), status)
    ensures forall id :: (id in proposals && proposals[id].clientId == clientId
              && MatchesStatusFilter(ProposalStatusName(proposals[id].status), status)) ==> id in r
  {
    set id | id in proposals && proposals[id].clientId == clientId
               && MatchesStatusFilter(ProposalStatusName(proposals[id].status), status)
  }

  /** Proposal.findByLawyer: the lawyer's proposals, narrowed to one status when a status is given. */
  function FindByLawyer(proposals: map<RecordId, Proposal>, lawyerId: UserId, status: Option<string>): (r: set<RecordId>)
    ensures forall id :: id in r ==> id in proposals && proposals[id].lawyerId == lawyerId
    ensures forall id :: id in r ==> MatchesStatusFilter(ProposalStatusName(proposals[id].status), status)
    ensures forall id :: (id in proposals && proposals[id].lawyerId == lawyerId
              && MatchesStatusFilter(ProposalStatusName(proposals[id].status), status)) ==> id in r
  {
    set id | id in proposals && proposals[id].lawyerId == lawyerId
               && MatchesStatusFilter(ProposalStatusName(proposals[id].status), status)
  }

  /** The status filters partition a party's proposals: each one is found under exactly its own status name. */
  lemma {:induction false} StatusFiltersPartition(proposals: map<RecordId, Proposal>, clientId: UserId, id: RecordId, st: ProposalStatus)
    requires id in FindByClient(proposals, clientId, None)
    ensures id in FindByClient(proposals, clientId, Some(ProposalStatusName(st))) <==> proposals[id].status == st
  {
    if proposals[id].status != st {
      ProposalStatusNamesRoundTrip(st);
      ProposalStatusNamesRoundTrip(proposals[id].status);
    }
  }
}
