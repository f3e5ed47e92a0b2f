/** A client's invitation to a lawyer to look at a case and send a proposal. */
module InvitationModel {
  import opened Common

  datatype InvitationStatus = InvPending | InvViewed | InvAccepted | InvDeclined

  function InvitationStatusName(s: InvitationStatus): string {
    match s
    case InvPending => "pending"
    case InvViewed => "viewed"
    case InvAccepted => "accepted"
    case InvDeclined => "declined"
  }

  /** `Object.values(INVITATION_STATUS).includes(s)`, returning the status named. */
  function ParseInvitationStatus(s: string): (r: Option<InvitationStatus>)
    ensures r.Some? ==> InvitationStatusName(r.value) == s
  {
    if s == "pending" then Some(InvPending)
    else if s == "viewed" then Some(InvViewed)
    else if s == "accepted" then Some(InvAccepted)
    else if s == "declined" then Some(InvDeclined)
    else None
  }

  lemma {:induction false} InvitationStatusNamesRoundTrip(st: InvitationStatus)
    ensures ParseInvitationStatus(InvitationStatusName(st)) == Some(st)
  {
    match st
    case InvPending =>
    case InvViewed =>
    case InvAccepted =>
    case InvDeclined =>
  }

  datatype Invitation = Invitation(
    caseId: CaseId,
    lawyerId: UserId,
    clientId: UserId,
    status: InvitationStatus,
    viewedAt: Option<nat>,
    respondedAt: Option<nat>,
    createdAt: nat)

  /** A freshly created invitation: pending, never viewed, never answered. */
  function NewInvitation(caseId: CaseId, lawyerId: UserId, clientId: UserId, now: nat): (inv: Invitation)
    ensures inv.caseId == caseId && inv.lawyerId == lawyerId && inv.clientId == clientId
    ensures inv.status == InvPending && inv.viewedAt.None? && inv.respondedAt.None?
  {
    Invitation(caseId, lawyerId, clientId, InvPending, None, None, now)
  }

  /** markAsViewed: a pending invitation becomes viewed at `now`; any other is returned as it was. */
  function MarkAsViewed(inv: Invitation, now: nat): (r: Invitation)
    ensures inv.status == InvPending ==> r == inv.(status := InvViewed, viewedAt := Some(now))
    ensures inv.status != InvPending ==> r == inv
  {
    if inv.status == InvPending then inv.(status := InvViewed, viewedAt := Some(now)) else inv
  }

  /** Viewing twice is viewing once: the second view finds the invitation no longer pending. */
  lemma {:induction false} MarkAsViewedIsIdempotent(inv: Invitation, t1: nat, t2: nat)
    ensures MarkAsViewed(MarkAsViewed(inv, t1), t2) == MarkAsViewed(inv, t1)
    ensures MarkAsViewed(inv, t1).status != InvPending
  {
  }

  /** `if (status) query.status = status`: the empty string is falsy and filters nothing. */
  predicate MatchesStatusFilter(name: string, status: Option<string>) {
    !Truthy(status) || name == status.value
  }

  /** CaseInvitation.findByLawyer: the lawyer's invitations, narrowed to one status when a status is given. */
  function FindByLawyer(invitations: map<RecordId, Invitation>, lawyerId: UserId, status: Option<string>): (r: set<RecordId>)
    ensures forall id :: id in r ==> id in invitations && invitations[id].lawyerId == lawyerId
    ensures forall id :: id in r ==> MatchesStatusFilter(InvitationStatusName(invitations[id].status), status)
    ensures forall id :: (id in invitations && invitations[id].lawyerId == lawyerId
              && MatchesStatusFilter(InvitationStatusName(invitations[id].status), status)) ==> id in r
  {
    set id | id in invitations && invitations[id].lawyerId == lawyerId
               && MatchesStatusFilter(InvitationStatusName(invitations[id].status), status)
  }

  /** A status that names no invitation status makes the model query find nothing. */
  lemma {:induction false} FindByLawyerUnknownStatus(invitations: map<RecordId, Invitation>, lawyerId: UserId, status: string)
    requires status != "" && ParseInvitationStatus(status).None?
    ensures FindByLawyer(invitations, lawyerId, Some(status)) == {}
  {
    forall id | id in FindByLawyer(invitations, lawyerId, Some(status))
      ensures false
    {
      InvitationStatusNamesRoundTrip(invitations[id].status);
    }
  }
}
