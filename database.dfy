/**
 * The document store the services share: one map per collection, keyed by record id (or by
 * the unique key a collection declares), and the invariants every service operation keeps.
 */
module Store {
  import opened Common
  import opened UserModel
  import opened CaseModel
  import opened InvitationModel
  import opened ProposalModel
  import opened CaseTimeline
  import opened LawyerProfileModel
  import opened ClientProfileModel

  // ---------------------------------------------------------------- queries over the collections

  /** The invitations sent for case `c`. */
  function InvitationsOf(invitations: map<RecordId, Invitation>, c: CaseId): (ids: set<RecordId>)
  {
    set id | id in invitations && invitations[id].caseId == c
  }

  /** `CaseInvitation.exists({caseId, lawyerId})`. */
  predicate HasInvitation(invitations: map<RecordId, Invitation>, c: CaseId, lawyerId: UserId) {
    exists id :: id in invitations && invitations[id].caseId == c && invitations[id].lawyerId == lawyerId
  }

  /** `Proposal.findOne({caseId, lawyerId})` finds something. */
  predicate HasProposal(proposals: map<RecordId, Proposal>, c: CaseId, lawyerId: UserId) {
    exists id :: id in proposals && proposals[id].caseId == c && proposals[id].lawyerId == lawyerId
  }

  // ---------------------------------------------------------------- the invariants, collection by collection

  /** The unique index on (caseId, lawyerId) of the invitations. */
  ghost predicate UniqueInvitationPairs(invitations: map<RecordId, Invitation>) {
    forall i, j ::
      (i in invitations && j in invitations
       && invitations[i].caseId == invitations[j].caseId && invitations[i].lawyerId == invitations[j].lawyerId) ==> i == j
  }

  /** The unique index on (caseId, lawyerId) of the proposals. */
  ghost predicate UniqueProposalPairs(proposals: map<RecordId, Proposal>) {
    forall i, j ::
      (i in proposals && j in proposals
       && proposals[i].caseId == proposals[j].caseId && proposals[i].lawyerId == proposals[j].lawyerId) ==> i == j
  }

  /** Every stored case passes the case schema, and its invitation counter counts its invitations. */
  ghost predicate CasesValid(cases: map<CaseId, Case>, invitations: map<RecordId, Invitation>) {
    forall c :: c in cases ==> CaseSchema(cases[c]) && cases[c].invitationCount == |InvitationsOf(invitations, c)|
  }

  /** Every invitation belongs to a stored case and was sent by that case's client; pairs are unique. */
  ghost predicate InvitationsValid(cases: map<CaseId, Case>, invitations: map<RecordId, Invitation>) {
    && (forall id :: id in invitations ==>
          invitations[id].caseId in cases && invitations[id].clientId == cases[invitations[id].caseId].clientId)
    && UniqueInvitationPairs(invitations)
  }

  /** Every proposal passes its schema and belongs to a stored case of its client; pairs are unique. */
  ghost predicate ProposalsValid(cases: map<CaseId, Case>, proposals: map<RecordId, Proposal>) {
    && (forall id :: id in proposals ==>
          ProposalSchema(proposals[id])
          && proposals[id].caseId in cases && proposals[id].clientId == cases[proposals[id].caseId].clientId)
    && UniqueProposalPairs(proposals)
  }

  /**
   * At most one timeline per case (the map is keyed by the unique caseId), each for a stored case
   * and well formed; and a case that has an assigned lawyer has its timeline.
   */
  ghost predicate TimelinesValid(cases: map<CaseId, Case>, timelines: map<CaseId, Timeline>) {
    && (forall c :: c in timelines ==> c in cases && timelines[c].caseId == c && WellFormed(timelines[c]))
    && (forall c :: c in cases && cases[c].assignedLawyerId.Some? ==> c in timelines)
  }

  /** Stored profiles went through their pre-save hooks and validators. */
  ghost predicate ProfilesValid(lawyerProfiles: seq<LawyerProfile>, clientProfiles: map<UserId, ClientProfile>) {
    && (forall i :: 0 <= i < |lawyerProfiles| ==> LawyerProfileSchema(lawyerProfiles[i]))
    && (forall u :: u in clientProfiles ==>
          clientProfiles[u].userId == u && ValidClientProfile(clientProfiles[u])
          && clientProfiles[u].isProfileComplete == PreSaveComplete(clientProfiles[u]))
  }

  /** The allocator stays above every record id handed out. */
  ghost predicate IdsBelow(cases: map<CaseId, Case>, invitations: map<RecordId, Invitation>,
                           proposals: map<RecordId, Proposal>, nextId: nat) {
    && (forall c :: c in cases ==> c < nextId)
    && (forall id :: id in invitations ==> id < nextId)
    && (forall id :: id in proposals ==> id < nextId)
  }

  /** The consistency the store keeps between its collections. */
  ghost predicate StoreValid(cases: map<CaseId, Case>, invitations: map<RecordId, Invitation>,
                             proposals: map<RecordId, Proposal>, timelines: map<CaseId, Timeline>, nextId: nat) {
    && IdsBelow(cases, invitations, proposals, nextId)
    && CasesValid(cases, invitations)
    && InvitationsValid(cases, invitations)
    && ProposalsValid(cases, proposals)
    && TimelinesValid(cases, timelines)
  }

  class Database {
    var users: map<UserId, User>
    var cases: map<CaseId, Case>
    var invitations: map<RecordId, Invitation>
    var proposals: map<RecordId, Proposal>
    /** The timelines, keyed by the case they belong to. */
    var timelines: map<CaseId, Timeline>
    /** The lawyer profiles in the collection's natural order, the order queries return them in. */
    var lawyerProfiles: seq<LawyerProfile>
    /** The client profiles, keyed by their unique userId. */
    var clientProfiles: map<UserId, ClientProfile>
    /** The next record id to hand out; new ids are fresh. */
    var nextId: nat

    ghost predicate Valid()
      reads this
    {
      StoreValid(cases, invitations, proposals, timelines, nextId)
    }

    /**
     * The profile collections went through their save hooks. Kept apart from Valid() because
     * only the profile operations touch these two fields.
     */
    ghost predicate ProfilesConsistent()
      reads this`lawyerProfiles, this`clientProfiles
    {
      ProfilesValid(lawyerProfiles, clientProfiles)
    }

    /**
     * A store holding the given accounts and lawyer profiles (written by parts of the system
     * outside this model) and nothing else.
     */
    constructor (users: map<UserId, User>, lawyerProfiles: seq<LawyerProfile>)
      requires forall i :: 0 <= i < |lawyerProfiles| ==> LawyerProfileSchema(lawyerProfiles[i])
      ensures Valid() && ProfilesConsistent()
      ensures this.users == users && this.lawyerProfiles == lawyerProfiles
      ensures cases == map[] && invitations == map[] && proposals == map[] && timelines == map[]
      ensures clientProfiles == map[]
    {
      this.users := users;
      this.lawyerProfiles := lawyerProfiles;
      cases := map[];
      invitations := map[];
      proposals := map[];
      timelines := map[];
      clientProfiles := map[];
      nextId := 0;
    }

    /** A fresh record id: no stored case, invitation or proposal has it. */
    method FreshId() returns (id: RecordId)
      requires IdsBelow(cases, invitations, proposals, nextId)
      modifies this`nextId
      ensures id == old(nextId) && nextId == id + 1
      ensures id !in cases && id !in invitations && id !in proposals
      ensures IdsBelow(cases, invitations, proposals, nextId)
    {
      id := nextId;
      nextId := nextId + 1;
    }

    /**
     * Insert a new case under a fresh id. A new case has no invitations and no assigned lawyer,
     * so its counter must be zero and its assignment empty for the store to stay consistent.
     */
    method InsertCase(c: Case) returns (id: CaseId)
      requires Valid() && CaseSchema(c) && c.invitationCount == 0 && c.assignedLawyerId.None?
      modifies this`cases, this`nextId
      ensures Valid()
      ensures id !in old(cases) && cases == old(cases)[id := c]
    {
      CaseInsertKeepsValid(cases, invitations, proposals, timelines, nextId, c);
      id := nextId;
      cases := cases[id := c];
      nextId := nextId + 1;
    }

    /** Save a stored invitation back with new contents for the same case, lawyer and client. */
    method PutInvitation(id: RecordId, inv: Invitation)
      requires Valid() && id in invitations
      requires inv.caseId == invitations[id].caseId && inv.lawyerId == invitations[id].lawyerId
      requires inv.clientId == invitations[id].clientId
      modifies this`invitations
      ensures Valid() && invitations == old(invitations)[id := inv]
    {
      InvitationRewriteKeepsValid(cases, invitations, proposals, nextId, id, inv);
      invitations := invitations[id := inv];
    }

    /** Store `t` as the timeline of the stored case `caseId`, replacing the one it may have. */
    method PutTimeline(caseId: CaseId, t: Timeline)
      requires Valid() && caseId in cases && t.caseId == caseId && WellFormed(t)
      modifies this`timelines
      ensures Valid() && timelines == old(timelines)[caseId := t]
    {
      TimelineWriteKeepsTimelinesValid(cases, timelines, caseId, t);
      timelines := timelines[caseId := t];
    }

    /**
     * Save a stored case back with new contents that keep its owner and invitation counter, pass
     * the schema, and name an assigned lawyer only when the case has its timeline.
     */
    method UpdateCase(caseId: CaseId, c: Case)
      requires Valid() && caseId in cases
      requires c.clientId == cases[caseId].clientId && c.invitationCount == cases[caseId].invitationCount
      requires CaseSchema(c) && (c.assignedLawyerId.Some? ==> caseId in timelines)
      modifies this`cases
      ensures Valid() && cases == old(cases)[caseId := c]
    {
      CaseRewriteKeepsValid(cases, invitations, proposals, timelines, nextId, caseId, c);
      cases := cases[caseId := c];
    }

    /**
     * Insert a new proposal under a fresh id: it passes the schema, belongs to a stored case of
     * its client, and its lawyer has no proposal for that case yet (the unique pair index).
     */
    method InsertProposal(p: Proposal) returns (id: RecordId)
      requires Valid() && ProposalSchema(p) && p.caseId in cases && p.clientId == cases[p.caseId].clientId
      requires !HasProposal(proposals, p.caseId, p.lawyerId)
      modifies this`proposals, this`nextId
      ensures Valid()
      ensures id == old(nextId) && nextId == id + 1
      ensures id !in old(proposals) && proposals == old(proposals)[id := p]
    {
      ProposalInsertKeepsValid(cases, proposals, nextId, p);
      id := nextId;
      proposals := proposals[id := p];
      nextId := nextId + 1;
      assert StoreValid(cases, invitations, proposals, timelines, nextId);
    }

    /**
     * Replace the proposals by a rewrite that keeps every proposal's case, lawyer and client and
     * the schema: a save of one proposal, or an updateMany over several.
     */
    method RewriteProposals(ps: map<RecordId, Proposal>)
      requires Valid() && SameParties(proposals, ps)
      modifies this`proposals
      ensures Valid() && proposals == ps
    {
      ProposalsRewriteKeepsValid(cases, proposals, ps);
      proposals := ps;
      assert StoreValid(cases, invitations, proposals, timelines, nextId);
    }

    /**
     * Store the invitations written for case `caseId` together with the allocator they left, and
     * add the number created to the case's counter (the `$inc` on invitationCount). The caller
     * shows, with InvitationsAddedKeepValid, that the result is consistent.
     */
    method RecordInvitations(caseId: CaseId, invs: map<RecordId, Invitation>, next: nat, invited: nat)
      requires caseId in cases
      requires StoreValid(CountInvitations(cases, caseId, invited), invs, proposals, timelines, next)
      modifies this`cases, this`invitations, this`nextId
      ensures Valid() && invitations == invs && nextId == next
      ensures cases == CountInvitations(old(cases), caseId, invited)
    {
      cases := CountInvitations(cases, caseId, invited);
      invitations := invs;
      nextId := next;
      assert StoreValid(cases, invitations, proposals, timelines, nextId);
    }
  }

  // ---------------------------------------------------------------- how the invitation counts move

  /** Inserting a fresh invitation adds it to its own case's invitations and to no other case's. */
  lemma {:induction false} InsertInvitationCounts(invitations: map<RecordId, Invitation>, id: RecordId, inv: Invitation, c: CaseId)
    requires id !in invitations
    ensures InvitationsOf(invitations[id := inv], c)
            == if inv.caseId == c then InvitationsOf(invitations, c) + {id} else InvitationsOf(invitations, c)
    ensures |InvitationsOf(invitations[id := inv], c)|
            == |InvitationsOf(invitations, c)| + (if inv.caseId == c then 1 else 0)
  {
    var after := InvitationsOf(invitations[id := inv], c);
    var before := InvitationsOf(invitations, c);
    if inv.caseId == c {
      assert after == before + {id};
      assert id !in before;
    } else {
      assert after == before;
    }
  }

  /** Rewriting an invitation without moving it to another case changes no case's invitations. */
  lemma {:induction false} UpdateInvitationCounts(invitations: map<RecordId, Invitation>, id: RecordId, inv: Invitation)
    requires id in invitations && inv.caseId == invitations[id].caseId
    ensures forall c :: InvitationsOf(invitations[id := inv], c) == InvitationsOf(invitations, c)
  {
    forall c
      ensures InvitationsOf(invitations[id := inv], c) == InvitationsOf(invitations, c)
    {
      assert forall x :: x in InvitationsOf(invitations[id := inv], c) <==> x in InvitationsOf(invitations, c);
    }
  }

  /** A case id that no invitation names has none. */
  lemma {:induction false} NoInvitationsForUnknownCase(invitations: map<RecordId, Invitation>, c: CaseId)
    requires forall id :: id in invitations ==> invitations[id].caseId != c
    ensures InvitationsOf(invitations, c) == {}
  {
    assert forall x :: x !in InvitationsOf(invitations, c);
  }

  // ---------------------------------------------------------------- rewriting one case

  /** The consistency of the store survives rewriting a case as Database.UpdateCase allows. */
  lemma {:induction false} CaseRewriteKeepsValid(cases: map<CaseId, Case>, invitations: map<RecordId, Invitation>,
                                                proposals: map<RecordId, Proposal>, timelines: map<CaseId, Timeline>,
                                                nextId: nat, caseId: CaseId, c: Case)
    requires IdsBelow(cases, invitations, proposals, nextId) && CasesValid(cases, invitations)
    requires InvitationsValid(cases, invitations) && ProposalsValid(cases, proposals) && TimelinesValid(cases, timelines)
    requires caseId in cases && c.clientId == cases[caseId].clientId && c.invitationCount == cases[caseId].invitationCount
    requires CaseSchema(c) && (c.assignedLawyerId.Some? ==> caseId in timelines)
    ensures IdsBelow(cases[caseId := c], invitations, proposals, nextId) && CasesValid(cases[caseId := c], invitations)
    ensures InvitationsValid(cases[caseId := c], invitations) && ProposalsValid(cases[caseId := c], proposals)
    ensures TimelinesValid(cases[caseId := c], timelines)
  {
    CaseRewriteKeepsIdsBelow(cases, invitations, proposals, nextId, caseId, c);
    CaseRewriteKeepsCasesValid(cases, invitations, caseId, c);
    CaseRewriteKeepsInvitationsValid(cases, invitations, caseId, c);
    CaseRewriteKeepsProposalsValid(cases, proposals, caseId, c);
    CaseRewriteKeepsTimelinesValid(cases, timelines, caseId, c);
  }

  lemma {:induction false} CaseRewriteKeepsIdsBelow(cases: map<CaseId, Case>, invitations: map<RecordId, Invitation>,
                                                   proposals: map<RecordId, Proposal>, nextId: nat, caseId: CaseId, c: Case)
    requires IdsBelow(cases, invitations, proposals, nextId) && caseId in cases
    ensures IdsBelow(cases[caseId := c], invitations, proposals, nextId)
  {
    assert cases[caseId := c].Keys == cases.Keys;
  }

  lemma {:induction false} CaseRewriteKeepsCasesValid(cases: map<CaseId, Case>, invitations: map<RecordId, Invitation>, caseId: CaseId, c: Case)
    requires CasesValid(cases, invitations) && caseId in cases
    requires c.invitationCount == |InvitationsOf(invitations, caseId)| && CaseSchema(c)
    ensures CasesValid(cases[caseId := c], invitations)
  {
    var cases1 := cases[caseId := c];
    forall x | x in cases1
      ensures CaseSchema(cases1[x]) && cases1[x].invitationCount == |InvitationsOf(invitations, x)|
    {
      if x != caseId {
        assert cases1[x] == cases[x];
      }
    }
  }

  lemma {:induction false} CaseRewriteKeepsInvitationsValid(cases: map<CaseId, Case>, invitations: map<RecordId, Invitation>, caseId: CaseId, c: Case)
    requires InvitationsValid(cases, invitations) && caseId in cases
    requires c.clientId == cases[caseId].clientId
    ensures InvitationsValid(cases[caseId := c], invitations)
  {
    var cases1 := cases[caseId := c];
    forall id | id in invitations
      ensures invitations[id].caseId in cases1 && invitations[id].clientId == cases1[invitations[id].caseId].clientId
    {
      var x := invitations[id].caseId;
      if x != caseId {
        assert cases1[x] == cases[x];
      }
    }
  }

  lemma {:induction false} CaseRewriteKeepsProposalsValid(cases: map<CaseId, Case>, proposals: map<RecordId, Proposal>, caseId: CaseId, c: Case)
    requires ProposalsValid(cases, proposals) && caseId in cases
    requires c.clientId == cases[caseId].clientId
    ensures ProposalsValid(cases[caseId := c], proposals)
  {
    var cases1 := cases[caseId := c];
    forall id | id in proposals
      ensures proposals[id].caseId in cases1 && proposals[id].clientId == cases1[proposals[id].caseId].clientId
    {
      var x := proposals[id].caseId;
      if x != caseId {
        assert cases1[x] == cases[x];
      }
    }
  }

  lemma {:induction false} CaseRewriteKeepsTimelinesValid(cases: map<CaseId, Case>, timelines: map<CaseId, Timeline>, caseId: CaseId, c: Case)
    requires TimelinesValid(cases, timelines) && caseId in cases
    requires c.assignedLawyerId.Some? ==> caseId in timelines
    ensures TimelinesValid(cases[caseId := c], timelines)
  {
    var cases1 := cases[caseId := c];
    forall x | x in cases1 && cases1[x].assignedLawyerId.Some?
      ensures x in timelines
    {
      if x != caseId {
        assert cases1[x] == cases[x];
      }
    }
  }

  lemma {:induction false} TimelineWriteKeepsTimelinesValid(cases: map<CaseId, Case>, timelines: map<CaseId, Timeline>, caseId: CaseId, t: Timeline)
    requires TimelinesValid(cases, timelines) && caseId in cases && t.caseId == caseId && WellFormed(t)
    ensures TimelinesValid(cases, timelines[caseId := t])
  {
    var timelines1 := timelines[caseId := t];
    forall x | x in timelines1
      ensures x in cases && timelines1[x].caseId == x && WellFormed(timelines1[x])
    {
      if x != caseId {
        assert timelines1[x] == timelines[x];
      }
    }
  }

  // ---------------------------------------------------------------- inserting a case, rewriting an invitation

  lemma {:induction false} CaseInsertKeepsValid(cases: map<CaseId, Case>, invitations: map<RecordId, Invitation>,
                                               proposals: map<RecordId, Proposal>, timelines: map<CaseId, Timeline>,
                                               nextId: nat, c: Case)
    requires IdsBelow(cases, invitations, proposals, nextId) && CasesValid(cases, invitations)
    requires InvitationsValid(cases, invitations) && ProposalsValid(cases, proposals) && TimelinesValid(cases, timelines)
    requires CaseSchema(c) && c.invitationCount == 0 && c.assignedLawyerId.None?
    ensures nextId !in cases
    ensures IdsBelow(cases[nextId := c], invitations, proposals, nextId + 1) && CasesValid(cases[nextId := c], invitations)
    ensures InvitationsValid(cases[nextId := c], invitations) && ProposalsValid(cases[nextId := c], proposals)
    ensures TimelinesValid(cases[nextId := c], timelines)
  {
    CaseInsertKeepsCounts(cases, invitations, nextId, c);
    CaseInsertKeepsOwners(cases, invitations, proposals, nextId, c);
    var cases1 := cases[nextId := c];
    forall x | x in cases1 && cases1[x].assignedLawyerId.Some?
      ensures x in timelines
    {
      assert x != nextId;
    }
  }

  lemma {:induction false} CaseInsertKeepsCounts(cases: map<CaseId, Case>, invitations: map<RecordId, Invitation>, nextId: nat, c: Case)
    requires forall x :: x in cases ==> x < nextId
    requires CasesValid(cases, invitations) && InvitationsValid(cases, invitations)
    requires CaseSchema(c) && c.invitationCount == 0
    ensures CasesValid(cases[nextId := c], invitations)
  {
    var cases1 := cases[nextId := c];
    NoInvitationsForUnknownCase(invitations, nextId);
    forall x | x in cases1
      ensures CaseSchema(cases1[x]) && cases1[x].invitationCount == |InvitationsOf(invitations, x)|
    {
      if x != nextId {
        assert cases1[x] == cases[x];
      }
    }
  }

  lemma {:induction false} CaseInsertKeepsOwners(cases: map<CaseId, Case>, invitations: map<RecordId, Invitation>,
                                                proposals: map<RecordId, Proposal>, nextId: nat, c: Case)
    requires IdsBelow(cases, invitations, proposals, nextId)
    requires InvitationsValid(cases, invitations) && ProposalsValid(cases, proposals)
    ensures IdsBelow(cases[nextId := c], invitations, proposals, nextId + 1)
    ensures InvitationsValid(cases[nextId := c], invitations) && ProposalsValid(cases[nextId := c], proposals)
  {
    var cases1 := cases[nextId := c];
    forall id | id in invitations
      ensures invitations[id].caseId in cases1 && invitations[id].clientId == cases1[invitations[id].caseId].clientId
    {
      assert cases1[invitations[id].caseId] == cases[invitations[id].caseId];
    }
    forall id | id in proposals
      ensures proposals[id].caseId in cases1 && proposals[id].clientId == cases1[proposals[id].caseId].clientId
    {
      assert cases1[proposals[id].caseId] == cases[proposals[id].caseId];
    }
  }

  lemma {:induction false} InvitationRewriteKeepsValid(cases: map<CaseId, Case>, invitations: map<RecordId, Invitation>,
                                                      proposals: map<RecordId, Proposal>, nextId: nat, id: RecordId, inv: Invitation)
    requires IdsBelow(cases, invitations, proposals, nextId) && CasesValid(cases, invitations) && InvitationsValid(cases, invitations)
    requires id in invitations && inv.caseId == invitations[id].caseId && inv.lawyerId == invitations[id].lawyerId
    requires inv.clientId == invitations[id].clientId
    ensures IdsBelow(cases, invitations[id := inv], proposals, nextId) && CasesValid(cases, invitations[id := inv])
    ensures InvitationsValid(cases, invitations[id := inv])
  {
    var invitations1 := invitations[id := inv];
    UpdateInvitationCounts(invitations, id, inv);
    assert invitations1.Keys == invitations.Keys;
    forall i, j | i in invitations1 && j in invitations1
                  && invitations1[i].caseId == invitations1[j].caseId && invitations1[i].lawyerId == invitations1[j].lawyerId
      ensures i == j
    {
      assert invitations1[i].caseId == invitations[i].caseId && invitations1[i].lawyerId == invitations[i].lawyerId;
      assert invitations1[j].caseId == invitations[j].caseId && invitations1[j].lawyerId == invitations[j].lawyerId;
    }
  }

  // ---------------------------------------------------------------- writing proposals

  /** `after` holds the proposals of `before`, each for the same case, lawyer and client and passing the schema. */
  ghost predicate SameParties(before: map<RecordId, Proposal>, after: map<RecordId, Proposal>) {
    && after.Keys == before.Keys
    && forall id :: id in after ==>
         && after[id].caseId == before[id].caseId && after[id].lawyerId == before[id].lawyerId
         && after[id].clientId == before[id].clientId && ProposalSchema(after[id])
  }

  /** Saving one proposal with the same parties and a valid schema is such a rewrite. */
  lemma {:induction false} PutIsRewrite(proposals: map<RecordId, Proposal>, id: RecordId, p: Proposal)
    requires forall k :: k in proposals ==> ProposalSchema(proposals[k])
    requires id in proposals && ProposalSchema(p)
    requires p.caseId == proposals[id].caseId && p.lawyerId == proposals[id].lawyerId && p.clientId == proposals[id].clientId
    ensures SameParties(proposals, proposals[id := p])
  {
  }

  lemma {:induction false} ProposalsRewriteKeepsValid(cases: map<CaseId, Case>, proposals: map<RecordId, Proposal>,
                                                     ps: map<RecordId, Proposal>)
    requires ProposalsValid(cases, proposals) && SameParties(proposals, ps)
    ensures ProposalsValid(cases, ps)
  {
    forall i, j | i in ps && j in ps && ps[i].caseId == ps[j].caseId && ps[i].lawyerId == ps[j].lawyerId
      ensures i == j
    {
      assert proposals[i].caseId == proposals[j].caseId && proposals[i].lawyerId == proposals[j].lawyerId;
    }
  }

  lemma {:induction false} ProposalInsertKeepsValid(cases: map<CaseId, Case>, proposals: map<RecordId, Proposal>,
                                                   id: RecordId, p: Proposal)
    requires ProposalsValid(cases, proposals) && id !in proposals
    requires ProposalSchema(p) && p.caseId in cases && p.clientId == cases[p.caseId].clientId
    requires !HasProposal(proposals, p.caseId, p.lawyerId)
    ensures ProposalsValid(cases, proposals[id := p])
  {
    forall k | k in proposals
      ensures proposals[k].caseId != p.caseId || proposals[k].lawyerId != p.lawyerId
    {
    }
  }

  // ---------------------------------------------------------------- invitations added to one case

  /** The `$inc` of a case's invitation counter by `n`. */
  function CountInvitations(cases: map<CaseId, Case>, caseId: CaseId, n: nat): (r: map<CaseId, Case>)
    requires caseId in cases
    ensures r.Keys == cases.Keys
    ensures r[caseId].invitationCount == cases[caseId].invitationCount + n
  {
    cases[caseId := cases[caseId].(invitationCount := cases[caseId].invitationCount + n)]
  }

  /** `after` keeps every invitation of `before` and adds only invitations of case `caseId`. */
  ghost predicate OnlyAddedTo(before: map<RecordId, Invitation>, after: map<RecordId, Invitation>, caseId: CaseId) {
    && (forall id :: id in before ==> id in after && after[id] == before[id])
    && (forall id :: id in after && id !in before ==> after[id].caseId == caseId)
  }

  /** Adding invitations to one case leaves every other case's invitations as they were. */
  lemma {:induction false} AddedToOneCaseOnly(before: map<RecordId, Invitation>, after: map<RecordId, Invitation>,
                                             caseId: CaseId, c: CaseId)
    requires OnlyAddedTo(before, after, caseId) && c != caseId
    ensures InvitationsOf(after, c) == InvitationsOf(before, c)
  {
    assert forall id :: id in InvitationsOf(after, c) ==> id in before;
  }

  /** The consistency of the store survives adding invitations to one case and counting them on it. */
  lemma {:induction false} InvitationsAddedKeepValid(cases: map<CaseId, Case>, invitations: map<RecordId, Invitation>,
                                                    invs: map<RecordId, Invitation>, proposals: map<RecordId, Proposal>,
                                                    timelines: map<CaseId, Timeline>, next: nat, caseId: CaseId, invited: nat)
    requires CasesValid(cases, invitations) && ProposalsValid(cases, proposals) && TimelinesValid(cases, timelines)
    requires IdsBelow(cases, invs, proposals, next) && InvitationsValid(cases, invs)
    requires caseId in cases
    requires OnlyAddedTo(invitations, invs, caseId)
    requires |InvitationsOf(invs, caseId)| == |InvitationsOf(invitations, caseId)| + invited
    ensures StoreValid(CountInvitations(cases, caseId, invited), invs, proposals, timelines, next)
  {
    var c := cases[caseId].(invitationCount := cases[caseId].invitationCount + invited);
    CaseRewriteKeepsIdsBelow(cases, invs, proposals, next, caseId, c);
    var cases1 := cases[caseId := c];
    forall x | x in cases1
      ensures CaseSchema(cases1[x]) && cases1[x].invitationCount == |InvitationsOf(invs, x)|
    {
      if x != caseId {
        assert cases1[x] == cases[x];
        AddedToOneCaseOnly(invitations, invs, caseId, x);
      }
    }
    CaseRewriteKeepsInvitationsValid(cases, invs, caseId, c);
    CaseRewriteKeepsProposalsValid(cases, proposals, caseId, c);
    CaseRewriteKeepsTimelinesValid(cases, timelines, caseId, c);
  }
}
