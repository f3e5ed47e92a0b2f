/**
 * The proposal service: a lawyer submits a proposal to a case they were invited to, the client
 * accepts or rejects it (an acceptance assigns the lawyer, opens the timeline and turns the
 * other open proposals down), the lawyer withdraws it, and either party reads it.
 */
module ProposalService {
  import opened Common
  import opened Errors
  import opened Constants
  import opened CaseModel
  import opened InvitationModel
  import opened ProposalModel
  import opened CaseTimeline
  import opened Store
  import TimelineService

  const CANNOT_PROPOSE: string := "cannot submit proposal to this case"
  const ALREADY_PROPOSED: string := "you have already submitted a proposal for this case"
  const ALREADY_ANSWERED: string := "proposal has already been responded to"
  const CANNOT_WITHDRAW_ACCEPTED: string := "cannot withdraw an accepted proposal"
  const ALREADY_WITHDRAWN: string := "proposal has already been withdrawn"
  /** The note the acceptance cascade leaves on the proposals it turns down. */
  const ANOTHER_ACCEPTED: string := "Another proposal was accepted"

  // ---------------------------------------------------------------- counters and case assignment

  /** The case after an `$inc` of its proposal counter by `delta` (which may be negative). */
  function Counted(c: Case, delta: int): (d: Case)
    ensures d.proposalCount == c.proposalCount + delta
    ensures d.(proposalCount := c.proposalCount) == c
  {
    c.(proposalCount := c.proposalCount + delta)
  }

  /** The `$inc: {proposalCount: delta}` on a stored case. */
  method CountInCase(db: Database, caseId: CaseId, delta: int)
    requires db.Valid() && caseId in db.cases
    modifies db`cases
    ensures db.Valid() && db.cases == old(db.cases)[caseId := Counted(old(db.cases[caseId]), delta)]
  {
    db.UpdateCase(caseId, Counted(db.cases[caseId], delta));
  }

  /** The case after an acceptance: active, assigned to `lawyerId`, assigned now. */
  function Assigned(c: Case, lawyerId: UserId, now: nat): (d: Case)
    ensures d.status == CaseActive && d.assignedLawyerId == Some(lawyerId) && d.assignedAt == Some(now)
    ensures d.(status := c.status, assignedLawyerId := c.assignedLawyerId, assignedAt := c.assignedAt) == c
  {
    c.(status := CaseActive, assignedLawyerId := Some(lawyerId), assignedAt := Some(now))
  }

  // ---------------------------------------------------------------- createProposal

  /** An invitation that lets its lawyer propose: pending, viewed or accepted. */
  predicate LiveInvitation(invitations: map<RecordId, Invitation>, id: RecordId, caseId: CaseId, lawyerId: UserId) {
    && id in invitations && invitations[id].caseId == caseId && invitations[id].lawyerId == lawyerId
    && invitations[id].status in {InvPending, InvViewed, InvAccepted}
  }

  /** `CaseInvitation.findOne({caseId, lawyerId, status: {$in: [pending, viewed, accepted]}})` finds one. */
  predicate HasLiveInvitation(invitations: map<RecordId, Invitation>, caseId: CaseId, lawyerId: UserId) {
    exists id :: id in invitations && LiveInvitation(invitations, id, caseId, lawyerId)
  }

  /**
   * The checks of createProposalService before it writes, in its order: the case exists
   * (NotFound) and is pending or active (BadRequest), the lawyer holds a live invitation
   * (Unauthorized) and no proposal for the case (BadRequest), and the body passes the schema.
   * On success, the proposal to store: pending, from this lawyer, to the case's client.
   */
  function CreatePrecheck(cases: map<CaseId, Case>, invitations: map<RecordId, Invitation>,
                          proposals: map<RecordId, Proposal>, input: ProposalInput, lawyerId: UserId, now: nat)
    : (r: Result<Proposal>)
    ensures input.caseId !in cases ==> r == Err(NotFound)
    ensures input.caseId in cases && cases[input.caseId].status !in {CasePending, CaseActive} ==>
              r == Err(BadRequest(CANNOT_PROPOSE))
    ensures (&& input.caseId in cases && cases[input.caseId].status in {CasePending, CaseActive}
             && !HasLiveInvitation(invitations, input.caseId, lawyerId)) ==> r == Err(Unauthorized)
    ensures (&& input.caseId in cases && cases[input.caseId].status in {CasePending, CaseActive}
             && HasLiveInvitation(invitations, input.caseId, lawyerId) && HasProposal(proposals, input.caseId, lawyerId)) ==>
              r == Err(BadRequest(ALREADY_PROPOSED))
    ensures r.Ok? <==> && input.caseId in cases && cases[input.caseId].status in {CasePending, CaseActive}
                       && HasLiveInvitation(invitations, input.caseId, lawyerId)
                       && !HasProposal(proposals, input.caseId, lawyerId)
                       && ValidProposalInput(input)
    ensures r.Err? ==> r.error in {NotFound, Unauthorized, Validation, BadRequest(CANNOT_PROPOSE), BadRequest(ALREADY_PROPOSED)}
    ensures r.Ok? ==>
              && r.value.caseId == input.caseId && r.value.lawyerId == lawyerId
              && r.value.clientId == cases[input.caseId].clientId
              && r.value.status == PropPending && ProposalSchema(r.value)
  {
    if input.caseId !in cases then Err(NotFound)
    else if cases[input.caseId].status != CasePending && cases[input.caseId].status != CaseActive then Err(BadRequest(CANNOT_PROPOSE))
    else if !HasLiveInvitation(invitations, input.caseId, lawyerId) then Err(Unauthorized)
    else if HasProposal(proposals, input.caseId, lawyerId) then Err(BadRequest(ALREADY_PROPOSED))
    else NewProposal(input, lawyerId, cases[input.caseId].clientId, now)
  }

  /** The invitation after `invitation.status = accepted` (the same one when it already is). */
  function Accepted(inv: Invitation): (a: Invitation)
    ensures a.status == InvAccepted && a.(status := inv.status) == inv
    ensures inv.status == InvAccepted ==> a == inv
  {
    inv.(status := InvAccepted)
  }

  /**
   * createProposalService. A refusal (any of CreatePrecheck's) writes nothing. Otherwise the
   * new proposal is stored under a fresh id, the case's proposal counter rises by one and the
   * lawyer's live invitation for the case (`invitationId`) becomes accepted.
   */
  method CreateProposal(db: Database, input: ProposalInput, lawyerId: UserId, now: nat)
    returns (r: Result<RecordId>, invitationId: RecordId)
    requires db.Valid()
    modifies db`cases, db`invitations, db`proposals, db`nextId
    ensures db.Valid()
    ensures r.Err? <==> old(CreatePrecheck(db.cases, db.invitations, db.proposals, input, lawyerId, now)).Err?
    ensures r.Err? ==>
              && r.error == old(CreatePrecheck(db.cases, db.invitations, db.proposals, input, lawyerId, now)).error
              && db.cases == old(db.cases) && db.invitations == old(db.invitations)
              && db.proposals == old(db.proposals) && db.nextId == old(db.nextId)
    ensures r.Ok? ==>
              && r.value !in old(db.proposals)
              && db.proposals == old(db.proposals)[r.value := old(CreatePrecheck(db.cases, db.invitations, db.proposals, input, lawyerId, now)).value]
              && input.caseId in old(db.cases) && db.cases == old(db.cases)[input.caseId := Counted(old(db.cases[input.caseId]), 1)]
              && LiveInvitation(old(db.invitations), invitationId, input.caseId, lawyerId)
              && db.invitations == old(db.invitations)[invitationId := Accepted(old(db.invitations[invitationId]))]
  {
    var check := CreatePrecheck(db.cases, db.invitations, db.proposals, input, lawyerId, now);
    if check.Err? {
      return Err(check.error), 0;
    }
    invitationId :| invitationId in db.invitations && LiveInvitation(db.invitations, invitationId, input.caseId, lawyerId);
    var id := StoreProposal(db, check.value, invitationId);
    return Ok(id), invitationId;
  }

  /** The lawyer's invitation marked accepted (left as it is when it already is). */
  method AcceptInvitationIn(db: Database, id: RecordId)
    requires db.Valid() && id in db.invitations
    modifies db`invitations
    ensures db.Valid() && db.invitations == old(db.invitations)[id := Accepted(old(db.invitations[id]))]
  {
    var inv := db.invitations[id];
    if inv.status != InvAccepted {
      db.PutInvitation(id, Accepted(inv));
    } else {
      assert db.invitations == db.invitations[id := inv];
    }
  }

  /**
   * The writes of a proposal that passed its checks: the insert, the counter's `$inc` and the
   * acceptance of the lawyer's invitation.
   */
  method StoreProposal(db: Database, p: Proposal, invitationId: RecordId) returns (id: RecordId)
    requires db.Valid() && ProposalSchema(p) && p.caseId in db.cases && p.clientId == db.cases[p.caseId].clientId
    requires !HasProposal(db.proposals, p.caseId, p.lawyerId)
    requires LiveInvitation(db.invitations, invitationId, p.caseId, p.lawyerId)
    modifies db`cases, db`invitations, db`proposals, db`nextId
    ensures db.Valid()
    ensures id !in old(db.proposals) && db.proposals == old(db.proposals)[id := p]
    ensures db.cases == old(db.cases)[p.caseId := Counted(old(db.cases[p.caseId]), 1)]
    ensures db.invitations == old(db.invitations)[invitationId := Accepted(old(db.invitations[invitationId]))]
  {
    id := db.InsertProposal(p);
    CountInCase(db, p.caseId, 1);
    AcceptInvitationIn(db, invitationId);
  }

  /**
   * Once a proposal was created, a second submission by the same lawyer for the same case is
   * refused as a duplicate: two racing submissions, run one after the other, store one proposal.
   */
  lemma {:induction false} SecondProposalRefused(cases: map<CaseId, Case>, invitations: map<RecordId, Invitation>,
                                                proposals: map<RecordId, Proposal>, input: ProposalInput,
                                                again: ProposalInput, lawyerId: UserId, now: nat, later: nat,
                                                id: RecordId, invitationId: RecordId)
    requires CreatePrecheck(cases, invitations, proposals, input, lawyerId, now).Ok?
    requires LiveInvitation(invitations, invitationId, input.caseId, lawyerId)
    requires again.caseId == input.caseId
    ensures CreatePrecheck(cases[input.caseId := Counted(cases[input.caseId], 1)],
                           invitations[invitationId := Accepted(invitations[invitationId])],
                           proposals[id := CreatePrecheck(cases, invitations, proposals, input, lawyerId, now).value],
                           again, lawyerId, later)
            == Err(BadRequest(ALREADY_PROPOSED))
  {
    var p := CreatePrecheck(cases, invitations, proposals, input, lawyerId, now).value;
    var invitations' := invitations[invitationId := Accepted(invitations[invitationId])];
    assert LiveInvitation(invitations', invitationId, input.caseId, lawyerId);
    assert proposals[id := p][id] == p;
  }

  // ---------------------------------------------------------------- respondToProposal

  /**
   * The checks of respondToProposalService before it writes: the proposal exists and is the
   * caller's (NotFound), and it is not accepted or rejected yet (BadRequest). A withdrawn
   * proposal passes.
   */
  function RespondPrecheck(proposals: map<RecordId, Proposal>, proposalId: RecordId, clientId: UserId): (r: Result<Proposal>)
    ensures proposalId !in proposals || proposals[proposalId].clientId != clientId ==> r == Err(NotFound)
    ensures r.Ok? <==> && proposalId in proposals && proposals[proposalId].clientId == clientId
                       && proposals[proposalId].status !in {PropAccepted, PropRejected}
    ensures r.Err? ==> r.error == NotFound || r.error == BadRequest(ALREADY_ANSWERED)
    ensures r.Ok? ==> r.value == proposals[proposalId]
  {
    if proposalId !in proposals || proposals[proposalId].clientId != clientId then Err(NotFound)
    else if proposals[proposalId].status == PropAccepted || proposals[proposalId].status == PropRejected then Err(BadRequest(ALREADY_ANSWERED))
    else Ok(proposals[proposalId])
  }

  /**
   * The answered proposal: "accept" accepts and any other action rejects; it is answered now;
   * the note (trimmed by the schema's setter) replaces the stored one only when one is given.
   * Nothing else of the proposal changes.
   */
  function Answer(p: Proposal, action: string, note: Option<string>, now: nat): (q: Proposal)
    ensures q.status == PropAccepted <==> action == "accept"
    ensures q.status == PropAccepted || q.status == PropRejected
    ensures q.respondedAt == Some(now)
    ensures Truthy(note) ==> q.responseNote == Some(Trim(note.value))
    ensures !Truthy(note) ==> q.responseNote == p.responseNote
    ensures q.(status := p.status, respondedAt := p.respondedAt, responseNote := p.responseNote) == p
  {
    p.(status := if action == "accept" then PropAccepted else PropRejected,
       respondedAt := Some(now),
       responseNote := if Truthy(note) then Some(Trim(note.value)) else p.responseNote)
  }

  /** A proposal the acceptance of `acceptedId` turns down: another one of the case, pending or viewed. */
  predicate OpenSibling(p: Proposal, id: RecordId, caseId: CaseId, acceptedId: RecordId) {
    p.caseId == caseId && id != acceptedId && p.status in {PropPending, PropViewed}
  }

  /**
   * The updateMany of an acceptance: every open sibling becomes rejected, answered now, with the
   * note ANOTHER_ACCEPTED. No other proposal changes.
   */
  function RejectSiblings(proposals: map<RecordId, Proposal>, caseId: CaseId, acceptedId: RecordId, now: nat)
    : (ps: map<RecordId, Proposal>)
    ensures ps.Keys == proposals.Keys
    ensures forall id :: id in ps && OpenSibling(proposals[id], id, caseId, acceptedId) ==>
              && ps[id] == proposals[id].(status := PropRejected, respondedAt := Some(now), responseNote := Some(ANOTHER_ACCEPTED))
    ensures forall id :: id in ps && !OpenSibling(proposals[id], id, caseId, acceptedId) ==> ps[id] == proposals[id]
  {
    map id | id in proposals ::
      if OpenSibling(proposals[id], id, caseId, acceptedId)
      then proposals[id].(status := PropRejected, respondedAt := Some(now), responseNote := Some(ANOTHER_ACCEPTED))
      else proposals[id]
  }

  /**
   * Right after an acceptance no other proposal of the case is pending or viewed; the
   * withdrawn, rejected and accepted ones are exactly as they were.
   */
  lemma {:induction false} NoOpenSiblingAfterAccept(proposals: map<RecordId, Proposal>, caseId: CaseId,
                                                   acceptedId: RecordId, now: nat)
    ensures var ps := RejectSiblings(proposals, caseId, acceptedId, now);
            && (forall id :: id in ps && ps[id].caseId == caseId && id != acceptedId ==>
                  ps[id].status !in {PropPending, PropViewed})
            && (forall id :: id in ps && proposals[id].status in {PropWithdrawn, PropRejected, PropAccepted} ==>
                  ps[id] == proposals[id])
            && (acceptedId in proposals ==> ps[acceptedId] == proposals[acceptedId])
  {
    var ps := RejectSiblings(proposals, caseId, acceptedId, now);
    forall id | id in ps && ps[id].caseId == caseId && id != acceptedId
      ensures ps[id].status !in {PropPending, PropViewed}
    {
      if !OpenSibling(proposals[id], id, caseId, acceptedId) {
        assert ps[id] == proposals[id];
      }
    }
  }

  /** The turned-down siblings keep their parties and pass the schema: the updateMany is a valid rewrite. */
  lemma {:induction false} RejectSiblingsKeepsParties(proposals: map<RecordId, Proposal>, caseId: CaseId,
                                                     acceptedId: RecordId, now: nat)
    requires forall id :: id in proposals ==> ProposalSchema(proposals[id])
    ensures SameParties(proposals, RejectSiblings(proposals, caseId, acceptedId, now))
  {
    assert |ANOTHER_ACCEPTED| <= 500;
  }

  /**
   * respondToProposalService. A refusal of RespondPrecheck writes nothing, and neither does a
   * note over 500 characters (the save fails validation). Otherwise the proposal is answered;
   * a rejection changes nothing else, while an acceptance makes the case active and assigned,
   * gives it its timeline (kept when it exists) and turns the open siblings down.
   */
  method RespondToProposal(db: Database, proposalId: RecordId, clientId: UserId, action: string,
                           note: Option<string>, now: nat)
    returns (r: Result<Proposal>)
    requires db.Valid()
    modifies db`cases, db`proposals, db`timelines
    ensures db.Valid()
    ensures old(RespondPrecheck(db.proposals, proposalId, clientId)).Err? ==>
              r == Err(old(RespondPrecheck(db.proposals, proposalId, clientId)).error)
    ensures old(RespondPrecheck(db.proposals, proposalId, clientId)).Ok? ==>
              (r.Ok? <==> ProposalSchema(Answer(old(db.proposals[proposalId]), action, note, now)))
    ensures r.Err? ==> r.error != Validation || (Truthy(note) && |Trim(note.value)| > 500)
    ensures r.Err? ==> db.cases == old(db.cases) && db.proposals == old(db.proposals) && db.timelines == old(db.timelines)
    ensures r.Ok? ==> proposalId in old(db.proposals) && r.value == Answer(old(db.proposals[proposalId]), action, note, now)
    ensures r.Ok? && r.value.status == PropRejected ==>
              && db.proposals == old(db.proposals)[proposalId := r.value]
              && db.cases == old(db.cases) && db.timelines == old(db.timelines)
    ensures r.Ok? && r.value.status == PropAccepted ==>
              var caseId := r.value.caseId;
              && caseId in old(db.cases)
              && db.proposals == RejectSiblings(old(db.proposals)[proposalId := r.value], caseId, proposalId, now)
              && db.cases == old(db.cases)[caseId := Assigned(old(db.cases[caseId]), r.value.lawyerId, now)]
              && db.timelines == if caseId in old(db.timelines) then old(db.timelines)
                                 else old(db.timelines)[caseId := NewTimeline(caseId)]
  {
    var check := RespondPrecheck(db.proposals, proposalId, clientId);
    if check.Err? {
      return Err(check.error);
    }
    var answered := Answer(check.value, action, note, now);
    if !ProposalSchema(answered) {
      return Err(Validation);
    }
    StoreAnswer(db, proposalId, answered, now);
    return Ok(answered);
  }

  /** The writes of an answer that passed its checks: the answered proposal, then an acceptance's cascade. */
  method StoreAnswer(db: Database, proposalId: RecordId, answered: Proposal, now: nat)
    requires db.Valid() && proposalId in db.proposals && ProposalSchema(answered)
    requires answered.caseId == db.proposals[proposalId].caseId && answered.lawyerId == db.proposals[proposalId].lawyerId
    requires answered.clientId == db.proposals[proposalId].clientId
    modifies db`cases, db`proposals, db`timelines
    ensures db.Valid()
    ensures answered.status != PropAccepted ==>
              db.proposals == old(db.proposals)[proposalId := answered] && db.cases == old(db.cases) && db.timelines == old(db.timelines)
    ensures answered.status == PropAccepted ==>
              var caseId := answered.caseId;
              && caseId in old(db.cases)
              && db.proposals == RejectSiblings(old(db.proposals)[proposalId := answered], caseId, proposalId, now)
              && db.cases == old(db.cases)[caseId := Assigned(old(db.cases[caseId]), answered.lawyerId, now)]
              && db.timelines == if caseId in old(db.timelines) then old(db.timelines)
                                 else old(db.timelines)[caseId := NewTimeline(caseId)]
  {
    assert ProposalsValid(db.cases, db.proposals);
    PutIsRewrite(db.proposals, proposalId, answered);
    db.RewriteProposals(db.proposals[proposalId := answered]);
    if answered.status == PropAccepted {
      AcceptCascade(db, proposalId, answered, now);
    }
  }

  /**
   * The cascade of an acceptance: the case's timeline (created when missing), the case made
   * active and assigned to the proposal's lawyer, the open siblings turned down. The timeline
   * is created before the case names its lawyer, so that the store stays consistent at every
   * write.
   */
  method AcceptCascade(db: Database, proposalId: RecordId, p: Proposal, now: nat)
    requires db.Valid() && p.caseId in db.cases
    modifies db`cases, db`proposals, db`timelines
    ensures db.Valid()
    ensures db.proposals == RejectSiblings(old(db.proposals), p.caseId, proposalId, now)
    ensures db.cases == old(db.cases)[p.caseId := Assigned(old(db.cases[p.caseId]), p.lawyerId, now)]
    ensures db.timelines == if p.caseId in old(db.timelines) then old(db.timelines)
                            else old(db.timelines)[p.caseId := NewTimeline(p.caseId)]
  {
    var t := TimelineService.CreateTimeline(db, p.caseId);
    AssignIn(db, p.caseId, p.lawyerId, now);
    RejectSiblingsIn(db, p.caseId, proposalId, now);
  }

  /** The case update of an acceptance, on a stored case that has its timeline. */
  method AssignIn(db: Database, caseId: CaseId, lawyerId: UserId, now: nat)
    requires db.Valid() && caseId in db.cases && caseId in db.timelines
    modifies db`cases
    ensures db.Valid() && db.cases == old(db.cases)[caseId := Assigned(old(db.cases[caseId]), lawyerId, now)]
  {
    db.UpdateCase(caseId, Assigned(db.cases[caseId], lawyerId, now));
  }

  /** The updateMany of an acceptance, on the stored proposals. */
  method RejectSiblingsIn(db: Database, caseId: CaseId, acceptedId: RecordId, now: nat)
    requires db.Valid()
    modifies db`proposals
    ensures db.Valid() && db.proposals == RejectSiblings(old(db.proposals), caseId, acceptedId, now)
  {
    assert ProposalsValid(db.cases, db.proposals);
    RejectSiblingsKeepsParties(db.proposals, caseId, acceptedId, now);
    db.RewriteProposals(RejectSiblings(db.proposals, caseId, acceptedId, now));
  }

  /**
   * "One accepted proposal per case" is not kept: a withdrawn proposal passes the guard, and the
   * cascade of its acceptance leaves an earlier accepted sibling accepted.
   */
  lemma {:induction false} TwoAcceptedProposals(proposals: map<RecordId, Proposal>, first: RecordId, second: RecordId,
                                               clientId: UserId, now: nat)
    requires first in proposals && second in proposals && first != second
    requires proposals[first].caseId == proposals[second].caseId
    requires proposals[first].status == PropAccepted && proposals[second].status == PropWithdrawn
    requires proposals[second].clientId == clientId
    ensures RespondPrecheck(proposals, second, clientId).Ok?
    ensures var q := Answer(proposals[second], "accept", None, now);
            var ps := RejectSiblings(proposals[second := q], q.caseId, second, now);
            ps[first].status == PropAccepted && ps[second].status == PropAccepted
  {
    var q := Answer(proposals[second], "accept", None, now);
    var before := proposals[second := q];
    assert before[first] == proposals[first] && before[second] == q;
    assert !OpenSibling(before[first], first, q.caseId, second);
    assert !OpenSibling(before[second], second, q.caseId, second);
  }

  // ---------------------------------------------------------------- withdrawProposal

  /**
   * withdrawProposalService's checks and new proposal: the proposal exists and is the caller's
   * (NotFound), is not accepted and not withdrawn already (BadRequest); it becomes withdrawn.
   */
  function WithdrawPrecheck(proposals: map<RecordId, Proposal>, proposalId: RecordId, lawyerId: UserId): (r: Result<Proposal>)
    ensures proposalId !in proposals || proposals[proposalId].lawyerId != lawyerId ==> r == Err(NotFound)
    ensures proposalId in proposals && proposals[proposalId].lawyerId == lawyerId ==>
              && (proposals[proposalId].status == PropAccepted ==> r == Err(BadRequest(CANNOT_WITHDRAW_ACCEPTED)))
              && (proposals[proposalId].status == PropWithdrawn ==> r == Err(BadRequest(ALREADY_WITHDRAWN)))
    ensures r.Ok? <==> && proposalId in proposals && proposals[proposalId].lawyerId == lawyerId
                       && proposals[proposalId].status !in {PropAccepted, PropWithdrawn}
    ensures r.Ok? ==> r.value == proposals[proposalId].(status := PropWithdrawn)
  {
    if proposalId !in proposals || proposals[proposalId].lawyerId != lawyerId then Err(NotFound)
    else if proposals[proposalId].status == PropAccepted then Err(BadRequest(CANNOT_WITHDRAW_ACCEPTED))
    else if proposals[proposalId].status == PropWithdrawn then Err(BadRequest(ALREADY_WITHDRAWN))
    else Ok(proposals[proposalId].(status := PropWithdrawn))
  }

  /**
   * withdrawProposalService: a refusal writes nothing; otherwise the proposal is withdrawn and
   * its case's proposal counter falls by one.
   */
  method WithdrawProposal(db: Database, proposalId: RecordId, lawyerId: UserId) returns (r: Result<Proposal>)
    requires db.Valid()
    modifies db`cases, db`proposals
    ensures db.Valid()
    ensures r == old(WithdrawPrecheck(db.proposals, proposalId, lawyerId))
    ensures r.Err? ==> db.cases == old(db.cases) && db.proposals == old(db.proposals)
    ensures r.Ok? ==>
              && db.proposals == old(db.proposals)[proposalId := r.value]
              && r.value.caseId in old(db.cases) && db.cases == old(db.cases)[r.value.caseId := Counted(old(db.cases[r.value.caseId]), -1)]
  {
    r := WithdrawPrecheck(db.proposals, proposalId, lawyerId);
    if r.Err? {
      return;
    }
    assert ProposalsValid(db.cases, db.proposals);
    PutIsRewrite(db.proposals, proposalId, r.value);
    db.RewriteProposals(db.proposals[proposalId := r.value]);
    CountInCase(db, r.value.caseId, -1);
  }

  /**
   * The proposal counter is not a count of live proposals: after a withdrawal the client may
   * still reject the withdrawn proposal, which the lawyer may then withdraw again, so the case's
   * counter falls twice for one proposal.
   */
  lemma {:induction false} WithdrawTwice(proposals: map<RecordId, Proposal>, id: RecordId, lawyerId: UserId, clientId: UserId,
                                        action: string, now: nat)
    requires WithdrawPrecheck(proposals, id, lawyerId).Ok?
    requires proposals[id].clientId == clientId && action != "accept"
    ensures var withdrawn := proposals[id := WithdrawPrecheck(proposals, id, lawyerId).value];
            && RespondPrecheck(withdrawn, id, clientId).Ok?
            && WithdrawPrecheck(withdrawn[id := Answer(withdrawn[id], action, None, now)], id, lawyerId).Ok?
  {
    var withdrawn := proposals[id := WithdrawPrecheck(proposals, id, lawyerId).value];
    assert withdrawn[id].status == PropWithdrawn;
    var answered := withdrawn[id := Answer(withdrawn[id], action, None, now)];
    assert answered[id].status == PropRejected && answered[id].lawyerId == lawyerId;
  }

  // ---------------------------------------------------------------- getProposalById

  /** The proposal's own client reading it as a client. */
  predicate ClientViewer(p: Proposal, userId: UserId, role: string) {
    role == CLIENT && p.clientId == userId
  }

  /** The proposal's own lawyer reading it as a lawyer. */
  predicate LawyerViewer(p: Proposal, userId: UserId, role: string) {
    role == LAWYER && p.lawyerId == userId
  }

  /**
   * getProposalByIdService: NotFound for a missing proposal, Unauthorized for anyone but its
   * client or its lawyer. The client's read marks a pending proposal viewed now; the lawyer's
   * read changes nothing. The returned copy is taken before the mark and only its status is
   * patched, so a client sees `viewed` but the viewedAt the proposal had before the read.
   */
  method GetProposalById(db: Database, proposalId: RecordId, userId: UserId, role: string, now: nat)
    returns (r: Result<Proposal>)
    requires db.Valid()
    modifies db`proposals
    ensures db.Valid()
    ensures proposalId !in old(db.proposals) ==> r == Err(NotFound)
    ensures r.Ok? <==> proposalId in old(db.proposals) && (ClientViewer(old(db.proposals[proposalId]), userId, role)
                                                        || LawyerViewer(old(db.proposals[proposalId]), userId, role))
    ensures r.Err? ==> r.error in {NotFound, Unauthorized} && db.proposals == old(db.proposals)
    ensures r.Ok? && ClientViewer(old(db.proposals[proposalId]), userId, role) ==>
              db.proposals == old(db.proposals)[proposalId := ProposalModel.MarkAsViewed(old(db.proposals[proposalId]), now)]
    ensures r.Ok? && ClientViewer(old(db.proposals[proposalId]), userId, role) ==>
              r.value == old(db.proposals[proposalId]).(status := ProposalModel.MarkAsViewed(old(db.proposals[proposalId]), now).status)
    ensures r.Ok? && !ClientViewer(old(db.proposals[proposalId]), userId, role) ==>
              r.value == old(db.proposals[proposalId]) && db.proposals == old(db.proposals)
  {
    if proposalId !in db.proposals {
      return Err(NotFound);
    }
    var p := db.proposals[proposalId];
    if !ClientViewer(p, userId, role) && !LawyerViewer(p, userId, role) {
      return Err(Unauthorized);
    }
    if ClientViewer(p, userId, role) && p.status == PropPending {
      var q := ProposalModel.MarkAsViewed(p, now);
      assert ProposalsValid(db.cases, db.proposals);
      PutIsRewrite(db.proposals, proposalId, q);
      db.RewriteProposals(db.proposals[proposalId := q]);
      return Ok(p.(status := PropViewed));
    }
    return Ok(p);
  }

  // ---------------------------------------------------------------- received and sent proposals

  /** `status && Object.values(PROPOSAL_STATUS).includes(status)`: only a real status narrows the query. */
  function ProposalStatusFilter(status: Option<string>): (f: Option<string>)
    ensures f.Some? <==> status.Some? && ParseProposalStatus(status.value).Some?
    ensures f.Some? ==> f == status
  {
    if status.Some? && ParseProposalStatus(status.value).Some? then status else None
  }

  /**
   * getReceivedProposalsService: the client's proposals, narrowed to a case when one is named
   * and to a status only when it names a real status.
   */
  function GetReceivedProposals(db: Database, clientId: UserId, caseId: Option<CaseId>, status: Option<string>)
    : (r: set<RecordId>)
    reads db
    ensures forall id :: id in r <==>
              && id in db.proposals && db.proposals[id].clientId == clientId
              && (caseId.None? || db.proposals[id].caseId == caseId.value)
              && (ProposalStatusFilter(status).None? || ProposalStatusName(db.proposals[id].status) == status.value)
  {
    set id | id in ProposalModel.FindByClient(db.proposals, clientId, ProposalStatusFilter(status))
               && (caseId.None? || db.proposals[id].caseId == caseId.value)
  }

  /** getSentProposalsService: the lawyer's proposals, narrowed to a status only when it names a real status. */
  function GetSentProposals(db: Database, lawyerId: UserId, status: Option<string>): (r: set<RecordId>)
    reads db
    ensures forall id :: id in r <==>
              && id in db.proposals && db.proposals[id].lawyerId == lawyerId
              && (ProposalStatusFilter(status).None? || ProposalStatusName(db.proposals[id].status) == status.value)
  {
    ProposalModel.FindByLawyer(db.proposals, lawyerId, ProposalStatusFilter(status))
  }

  /** A status that is not a proposal status filters nothing out: every sent proposal is listed. */
  lemma {:induction false} UnknownStatusListsAllSent(db: Database, lawyerId: UserId, status: string)
    requires ParseProposalStatus(status).None?
    ensures GetSentProposals(db, lawyerId, Some(status)) == GetSentProposals(db, lawyerId, None)
  {
  }
}
