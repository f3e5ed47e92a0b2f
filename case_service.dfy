/**
 * The case service: creating a case (with its optional voice note), the client's and the
 * lawyer's queries, lawyer suggestions, inviting lawyers, answering an invitation and moving
 * a case between statuses.
 */
module CaseService {
  import opened Common
  import opened Errors
  import opened Constants
  import opened UserModel
  import opened CaseModel
  import opened InvitationModel
  import ProposalModel
  import opened LawyerProfileModel
  import opened CaseTimeline
  import opened Cloud
  import opened Store

  const CANNOT_INVITE: string := "cannot invite lawyers to this case"
  const NO_VALID_LAWYERS: string := "no valid lawyers found to invite"
  const INVALID_INVITATION_STATUS: string := "invalid invitation status"
  const ALREADY_RESPONDED: string := "invitation has already been responded to"
  const INVALID_CASE_STATUS: string := "invalid case status"

  // ---------------------------------------------------------------- createCase

  /**
   * createCaseService. A voice note is uploaded first; a rejected upload is swallowed and the
   * case is created without one. The new case is built as its schema defines it (pending,
   * owned by the caller, unassigned, counters at zero) and inserted under a fresh id. When the
   * body fails validation nothing is stored, but an uploaded voice note stays behind in the
   * blob store.
   */
  method CreateCase(db: Database, store: BlobStore, input: CaseInput, clientId: UserId,
                    voiceFile: Option<UploadFile>, accepted: bool, now: nat)
    returns (r: Result<CaseId>)
    requires db.Valid() && store.Valid()
    modifies db`cases, db`nextId, store
    ensures db.Valid() && store.Valid()
    ensures r.Ok? <==> ValidCaseInput(input)
    ensures r.Err? ==> r.error == Validation && db.cases == old(db.cases)
    ensures r.Ok? ==>
              && r.value !in old(db.cases) && r.value in db.cases
              && db.cases == old(db.cases)[r.value := db.cases[r.value]]
              && NewCase(input, clientId, db.cases[r.value].voiceNote, now) == Ok(db.cases[r.value])
              && (db.cases[r.value].voiceNote.Some? <==> voiceFile.Some? && accepted)
    ensures !(voiceFile.Some? && accepted) ==> store.live == old(store.live)
    ensures voiceFile.Some? && accepted ==>
              exists b :: b !in old(store.live) && store.live == old(store.live) + {b}
                          && (r.Ok? ==> db.cases[r.value].voiceNote.value.publicId == b)
  {
    var voiceNote: Option<VoiceNote> := None;
    if voiceFile.Some? {
      var up := store.Upload(accepted);
      if up.Some? {
        voiceNote := Some(VoiceNote(up.value.publicId, up.value.secureUrl));
      }
    }
    var built := NewCase(input, clientId, voiceNote, now);
    if built.Err? {
      return Err(Validation);
    }
    var id := db.InsertCase(built.value);
    return Ok(id);
  }

  /**
   * The case createCaseService stores as written (the body spread into the document) breaks
   * the store's consistency: a valid body that carries an invitation counter of 5 yields a case
   * counting five invitations it does not have, and one that names a lawyer yields an assigned
   * case with no timeline.
   */
  lemma {:induction false} MassAssignmentBreaksStore(cases: map<CaseId, Case>, invitations: map<RecordId, Invitation>,
                                                    timelines: map<CaseId, Timeline>, id: CaseId,
                                                    input: CaseInput, clientId: UserId, now: nat)
    requires ValidCaseInput(input) && id !in cases && id !in timelines
    requires forall i :: i in invitations ==> invitations[i].caseId != id
    ensures input.invitationCount == Some(5) ==>
              !CasesValid(cases[id := NewCaseAsWritten(input, clientId, None, now).value], invitations)
    ensures input.assignedLawyerId.Some? ==>
              !TimelinesValid(cases[id := NewCaseAsWritten(input, clientId, None, now).value], timelines)
  {
    NoInvitationsForUnknownCase(invitations, id);
  }

  /** A concrete body that passes validation and carries the counter and an assignment. */
  lemma {:induction false} MassAssignmentExample()
    ensures ValidCaseInput(MassAssignmentBody())
    ensures NewCaseAsWritten(MassAssignmentBody(), 1, None, 0).value.invitationCount == 5
    ensures NewCaseAsWritten(MassAssignmentBody(), 1, None, 0).value.assignedLawyerId == Some(7)
    ensures NewCase(MassAssignmentBody(), 1, None, 0).value.assignedLawyerId.None?
  {
    assert "x"[0] == 'x' && !IsSpace('x');
  }

  function MassAssignmentBody(): CaseInput {
    CaseInput(Some("x"), Some("x"), Some("x"), Some("25000-50000"), Some("x"), Some("x"),
              None, None, [], Some(7), Some(0), None, Some(5))
  }

  // ---------------------------------------------------------------- lawyer suggestions

  /** The client-facing summary of a lawyer (mapProfileToLawyer); the last two fields only on request. */
  datatype LawyerCard = LawyerCard(
    lawyerId: UserId,
    fullName: Option<string>,
    profilePicture: Option<FileRef>,
    areasOfPractice: seq<string>,
    yearsOfExperience: Option<int>,
    city: Option<string>,
    professionalBio: Option<string>,
    courtJurisdiction: Option<seq<string>>,
    languagesSpoken: Option<seq<string>>)

  /**
   * The profile query of the suggestion paths: a complete profile whose populated user is a
   * verified, non-deleted account (a profile whose user does not match populates to null and
   * is dropped).
   */
  predicate Suggestible(users: map<UserId, User>, p: LawyerProfile) {
    p.isProfileComplete && p.userId in users && IsVerifiedAccount(users[p.userId])
  }

  /** The suggestible profiles practising in `category`, in collection order. */
  function MatchingProfiles(users: map<UserId, User>, profiles: seq<LawyerProfile>, category: string): (r: seq<LawyerProfile>)
    ensures |r| <= |profiles|
    ensures forall p :: p in r <==> p in profiles && Suggestible(users, p) && category in p.areasOfPractice
  {
    if profiles == [] then []
    else
      var p := profiles[0];
      (if Suggestible(users, p) && category in p.areasOfPractice then [p] else [])
      + MatchingProfiles(users, profiles[1..], category)
  }

  function Card(users: map<UserId, User>, p: LawyerProfile, extended: bool): (c: LawyerCard)
    requires p.userId in users
    ensures c.lawyerId == p.userId && c.areasOfPractice == p.areasOfPractice
    ensures c.courtJurisdiction.Some? <==> extended
  {
    LawyerCard(p.userId, users[p.userId].fullName, users[p.userId].profilePicture, p.areasOfPractice,
               p.yearsOfExperience, p.city, p.professionalBio,
               if extended then Some(p.courtJurisdiction) else None,
               if extended then Some(p.languagesSpoken) else None)
  }

  function Cards(users: map<UserId, User>, ps: seq<LawyerProfile>, extended: bool): (r: seq<LawyerCard>)
    requires forall p :: p in ps ==> p.userId in users
    ensures |r| == |ps|
    ensures forall i :: 0 <= i < |ps| ==> r[i] == Card(users, ps[i], extended)
  {
    if ps == [] then [] else [Card(users, ps[0], extended)] + Cards(users, ps[1..], extended)
  }

  /** The lawyers suggested for a category: the matching profiles as cards. */
  function Suggestions(db: Database, category: string, extended: bool): (r: seq<LawyerCard>)
    reads db
  {
    Cards(db.users, MatchingProfiles(db.users, db.lawyerProfiles, category), extended)
  }

  // ---------------------------------------------------------------- getClientCases

  datatype CaseWithLawyers = CaseWithLawyers(details: Case, suggestedLawyers: seq<LawyerCard>, suggestedLawyersCount: nat)

  /** `status && Object.values(CASE_STATUS).includes(status)`: only a known status narrows the query. */
  function CaseStatusFilter(status: Option<string>): (f: Option<string>)
    ensures f.Some? ==> ParseCaseStatus(f.value).Some?
    ensures Truthy(status) && ParseCaseStatus(status.value).Some? ==> f == status
  {
    if Truthy(status) && ParseCaseStatus(status.value).Some? then status else None
  }

  /**
   * getClientCasesService: the caller's cases (narrowed to a status only when it names one),
   * each with at most five suggested lawyers whose practice areas include the case's category;
   * fewer than five only when no further lawyer matches.
   */
  function GetClientCases(db: Database, clientId: UserId, status: Option<string>): (r: map<CaseId, CaseWithLawyers>)
    reads db
    ensures r.Keys == FindByClient(db.cases, clientId, CaseStatusFilter(status))
    ensures forall id :: id in r ==> id in db.cases && db.cases[id].clientId == clientId && r[id].details == db.cases[id]
    ensures forall id :: id in r ==>
              && |r[id].suggestedLawyers| <= 5 && r[id].suggestedLawyersCount == |r[id].suggestedLawyers|
              && |r[id].suggestedLawyers| <= |Suggestions(db, db.cases[id].category, false)|
              && (|r[id].suggestedLawyers| < 5 ==> r[id].suggestedLawyers == Suggestions(db, db.cases[id].category, false))
              && r[id].suggestedLawyers == Suggestions(db, db.cases[id].category, false)[..|r[id].suggestedLawyers|]
  {
    map id | id in FindByClient(db.cases, clientId, CaseStatusFilter(status)) ::
      var s := Take(Suggestions(db, db.cases[id].category, false), 5);
      CaseWithLawyers(db.cases[id], s, |s|)
  }

  /** Every suggested lawyer practises in the case's category and has a complete, verified profile. */
  lemma {:induction false} SuggestionsMatchCategory(db: Database, category: string, extended: bool, i: nat)
    requires i < |Suggestions(db, category, extended)|
    ensures exists p :: p in db.lawyerProfiles && Suggestible(db.users, p) && category in p.areasOfPractice
                        && Suggestions(db, category, extended)[i].lawyerId == p.userId
                        && Suggestions(db, category, extended)[i].areasOfPractice == p.areasOfPractice
  {
    var ps := MatchingProfiles(db.users, db.lawyerProfiles, category);
    assert ps[i] in ps;
  }

  /** The list path suggests the same lawyers as the case path, cut to the first five. */
  lemma {:induction false} ListSuggestionsArePrefix(db: Database, category: string)
    ensures |Suggestions(db, category, false)| == |Suggestions(db, category, true)|
    ensures forall i :: 0 <= i < |Suggestions(db, category, false)| ==>
              Suggestions(db, category, false)[i] == Suggestions(db, category, true)[i].(courtJurisdiction := None, languagesSpoken := None)
  {
  }

  // ---------------------------------------------------------------- getCaseById

  /** Whether a caller of this role may read the case: clients their own, lawyers when invited or assigned. */
  predicate MayViewCase(db: Database, caseId: CaseId, userId: UserId, role: string)
    reads db
    requires caseId in db.cases
  {
    && (role == CLIENT ==> db.cases[caseId].clientId == userId)
    && (role == LAWYER ==> HasInvitation(db.invitations, caseId, userId) || db.cases[caseId].assignedLawyerId == Some(userId))
  }

  /**
   * getCaseByIdService: NotFound for a missing case; a client who does not own it, or a lawyer
   * neither invited (in any status) nor assigned, is Unauthorized; every other role reads it.
   */
  function GetCaseById(db: Database, caseId: CaseId, userId: UserId, role: string): (r: Result<Case>)
    reads db
    ensures r == Err(NotFound) <==> caseId !in db.cases
    ensures r.Ok? <==> caseId in db.cases && MayViewCase(db, caseId, userId, role)
    ensures r.Ok? ==> r.value == db.cases[caseId]
    ensures r.Err? ==> r.error == NotFound || r.error == Unauthorized
    ensures role != CLIENT && role != LAWYER && caseId in db.cases ==> r.Ok?
  {
    if caseId !in db.cases then Err(NotFound)
    else if role == CLIENT && db.cases[caseId].clientId != userId then Err(Unauthorized)
    else if role == LAWYER && !HasInvitation(db.invitations, caseId, userId)
            && db.cases[caseId].assignedLawyerId != Some(userId) then Err(Unauthorized)
    else Ok(db.cases[caseId])
  }

  /** A lawyer stays able to read a case once invited, whatever became of the invitation. */
  lemma {:induction false} InvitedLawyerSeesCase(db: Database, caseId: CaseId, lawyerId: UserId, id: RecordId)
    requires db.Valid()
    requires id in db.invitations && db.invitations[id].caseId == caseId && db.invitations[id].lawyerId == lawyerId
    ensures GetCaseById(db, caseId, lawyerId, LAWYER) == Ok(db.cases[caseId])
  {
    assert InvitationsValid(db.cases, db.invitations);
  }

  // ---------------------------------------------------------------- getSuggestedLawyers

  /**
   * getSuggestedLawyersService: NotFound for a missing case, Unauthorized for anyone but its
   * client; otherwise every matching lawyer, uncapped, with jurisdiction and languages.
   */
  function GetSuggestedLawyers(db: Database, caseId: CaseId, clientId: UserId): (r: Result<seq<LawyerCard>>)
    reads db
    ensures caseId !in db.cases ==> r == Err(NotFound)
    ensures r.Ok? <==> caseId in db.cases && db.cases[caseId].clientId == clientId
    ensures r.Err? ==> r.error == NotFound || r.error == Unauthorized
    ensures r.Ok? ==> |r.value| == |MatchingProfiles(db.users, db.lawyerProfiles, db.cases[caseId].category)|
    ensures r.Ok? ==> forall i :: 0 <= i < |r.value| ==>
              var p := MatchingProfiles(db.users, db.lawyerProfiles, db.cases[caseId].category)[i];
              && p.userId in db.users
              && r.value[i] == Card(db.users, p, true)
    ensures r.Ok? ==> forall i :: 0 <= i < |r.value| ==> r.value[i].courtJurisdiction.Some? && r.value[i].languagesSpoken.Some?
  {
    if caseId !in db.cases then Err(NotFound)
    else if db.cases[caseId].clientId != clientId then Err(Unauthorized)
    else Ok(Suggestions(db, db.cases[caseId].category, true))
  }

  // ---------------------------------------------------------------- getLawyerReceivedCases

  /** `status && Object.values(INVITATION_STATUS).includes(status)`: only a known status narrows the query. */
  function InvitationStatusFilter(status: Option<string>): (f: Option<string>)
    ensures f.Some? ==> ParseInvitationStatus(f.value).Some?
    ensures Truthy(status) && ParseInvitationStatus(status.value).Some? ==> f == status
  {
    if Truthy(status) && ParseInvitationStatus(status.value).Some? then status else None
  }

  /**
   * getLawyerReceivedCasesService: the lawyer's invitations (narrowed to a status only when it
   * names one) whose case still exists.
   */
  function GetLawyerReceivedCases(db: Database, lawyerId: UserId, status: Option<string>): (r: set<RecordId>)
    reads db
    ensures forall id :: id in r <==>
              && id in db.invitations && db.invitations[id].lawyerId == lawyerId
              && InvitationModel.MatchesStatusFilter(InvitationStatusName(db.invitations[id].status), InvitationStatusFilter(status))
              && db.invitations[id].caseId in db.cases
  {
    set id | id in FindByLawyer(db.invitations, lawyerId, InvitationStatusFilter(status)) && db.invitations[id].caseId in db.cases
  }

  /** In a consistent store no invitation's case is missing, so an unknown status returns all of the lawyer's invitations. */
  lemma {:induction false} UnknownStatusListsEverything(db: Database, lawyerId: UserId, status: string)
    requires db.Valid() && ParseInvitationStatus(status).None?
    ensures GetLawyerReceivedCases(db, lawyerId, Some(status)) == FindByLawyer(db.invitations, lawyerId, None)
  {
    assert InvitationsValid(db.cases, db.invitations);
  }

  // ---------------------------------------------------------------- inviteLawyers

  datatype InviteSummary = InviteSummary(invited: nat, skipped: nat)

  /**
   * `User.find({_id: {$in: lawyerIds}, role: lawyer, accountStatus: verified, isDeleted: false})`:
   * every verified, undeleted lawyer the list names, each of them once.
   */
  function ValidLawyers(users: map<UserId, User>, lawyerIds: seq<UserId>): (vs: seq<UserId>)
    ensures Distinct(vs)
    ensures forall l :: l in vs <==> l in lawyerIds && l in users && IsVerifiedLawyer(users[l])
    decreases |lawyerIds|
  {
    if lawyerIds == [] then []
    else
      var rest := ValidLawyers(users, lawyerIds[..|lawyerIds| - 1]);
      var l := lawyerIds[|lawyerIds| - 1];
      assert lawyerIds == lawyerIds[..|lawyerIds| - 1] + [l];
      if l in users && IsVerifiedLawyer(users[l]) && l !in rest then rest + [l] else rest
  }

  /** The invitations and the id allocator as the invitation loop carries them, with its two counters. */
  datatype InviteRun = InviteRun(invitations: map<RecordId, Invitation>, nextId: nat, invited: nat, skipped: nat)

  /**
   * One round of the invitation loop, `CaseInvitation.create` for `lawyerId`: the unique
   * (caseId, lawyerId) index refuses a second invitation (error 11000, counted as skipped);
   * otherwise a pending invitation is stored under the next free id and counted as invited.
   */
  function InviteOne(run: InviteRun, caseId: CaseId, lawyerId: UserId, clientId: UserId, now: nat): (r: InviteRun)
    ensures HasInvitation(r.invitations, caseId, lawyerId)
    ensures r.invited + r.skipped == run.invited + run.skipped + 1
    ensures r.invited == run.invited + 1 <==> !HasInvitation(run.invitations, caseId, lawyerId)
  {
    if HasInvitation(run.invitations, caseId, lawyerId) then run.(skipped := run.skipped + 1)
    else
      var inv := NewInvitation(caseId, lawyerId, clientId, now);
      assert run.invitations[run.nextId := inv][run.nextId] == inv;
      InviteRun(run.invitations[run.nextId := inv], run.nextId + 1, run.invited + 1, run.skipped)
  }

  /** The invitation loop over `ls` from the state `run`: one round per lawyer, in order. */
  function InviteAll(run: InviteRun, caseId: CaseId, ls: seq<UserId>, clientId: UserId, now: nat): (r: InviteRun)
    ensures r.invited + r.skipped == run.invited + run.skipped + |ls|
    ensures r.invited >= run.invited
    decreases |ls|
  {
    if ls == [] then run
    else InviteOne(InviteAll(run, caseId, ls[..|ls| - 1], clientId, now), caseId, ls[|ls| - 1], clientId, now)
  }

  /**
   * The invitation loop of inviteLawyersService, on the collection's values: each lawyer of
   * `valid` in turn is invited or skipped, starting from no invited and no skipped lawyer.
   */
  method CreateInvitations(invitations: map<RecordId, Invitation>, nextId: nat, caseId: CaseId,
                           valid: seq<UserId>, clientId: UserId, now: nat)
    returns (run: InviteRun)
    ensures run == InviteAll(InviteRun(invitations, nextId, 0, 0), caseId, valid, clientId, now)
  {
    run := InviteRun(invitations, nextId, 0, 0);
    for i := 0 to |valid|
      invariant run == InviteAll(InviteRun(invitations, nextId, 0, 0), caseId, valid[..i], clientId, now)
    {
      assert valid[..i + 1][..i] == valid[..i];
      run := InviteOne(run, caseId, valid[i], clientId, now);
    }
    assert valid[..|valid|] == valid;
  }

  /** The lawyers of `ls` that hold no invitation for the case in `invitations`. */
  function Uninvited(invitations: map<RecordId, Invitation>, caseId: CaseId, ls: seq<UserId>): (s: set<UserId>)
    ensures forall l :: l in s <==> l in ls && !HasInvitation(invitations, caseId, l)
  {
    set l | l in ls && !HasInvitation(invitations, caseId, l)
  }

  /**
   * What the invitation loop has done once it has reached the lawyers `done`: each of them holds
   * an invitation, the invitations there were are untouched, every new one is a pending
   * invitation for a lawyer of `done` who held none, and the case gained one per such lawyer.
   */
  ghost predicate InvitedSoFar(start: map<RecordId, Invitation>, cur: map<RecordId, Invitation>, caseId: CaseId,
                               done: seq<UserId>, clientId: UserId, now: nat) {
    && (forall l :: l in done ==> HasInvitation(cur, caseId, l))
    && (forall id :: id in start ==> id in cur && cur[id] == start[id])
    && (forall id :: id in cur && id !in start ==>
          && cur[id].lawyerId in Uninvited(start, caseId, done)
          && cur[id] == NewInvitation(caseId, cur[id].lawyerId, clientId, now))
    && |InvitationsOf(cur, caseId)| == |InvitationsOf(start, caseId)| + |Uninvited(start, caseId, done)|
  }

  /** What holds of the loop's state `run` once it has reached `done`: the store invariants it keeps, its work and its counters. */
  ghost predicate InviteProgress(cases: map<CaseId, Case>, proposals: map<RecordId, ProposalModel.Proposal>,
                                 start: map<RecordId, Invitation>, caseId: CaseId, done: seq<UserId>,
                                 clientId: UserId, now: nat, run: InviteRun)
  {
    && IdsBelow(cases, run.invitations, proposals, run.nextId) && InvitationsValid(cases, run.invitations)
    && InvitedSoFar(start, run.invitations, caseId, done, clientId, now)
    && run.invited + run.skipped == |done| && run.invited == |Uninvited(start, caseId, done)|
  }

  /**
   * Over distinct lawyers, the invitation loop keeps the store's invitation invariants, leaves
   * every lawyer it reached invited, adds only invitations of this case for lawyers who held
   * none, and counts each lawyer once: as invited exactly when they held no invitation before.
   */
  lemma {:induction false} InviteAllProgress(cases: map<CaseId, Case>, proposals: map<RecordId, ProposalModel.Proposal>,
                                            invitations: map<RecordId, Invitation>, nextId: nat, caseId: CaseId,
                                            ls: seq<UserId>, clientId: UserId, now: nat)
    requires IdsBelow(cases, invitations, proposals, nextId) && InvitationsValid(cases, invitations)
    requires caseId in cases && cases[caseId].clientId == clientId
    requires Distinct(ls)
    ensures InviteProgress(cases, proposals, invitations, caseId, ls, clientId, now,
                           InviteAll(InviteRun(invitations, nextId, 0, 0), caseId, ls, clientId, now))
    decreases |ls|
  {
    if ls == [] {
      assert Uninvited(invitations, caseId, ls) == {};
    } else {
      var init, l := ls[..|ls| - 1], ls[|ls| - 1];
      assert forall k :: 0 <= k < |init| ==> init[k] == ls[k];
      assert init + [l] == ls;
      InviteAllProgress(cases, proposals, invitations, nextId, caseId, init, clientId, now);
      InviteOneProgress(cases, proposals, invitations, caseId, init, l, clientId, now,
                        InviteAll(InviteRun(invitations, nextId, 0, 0), caseId, init, clientId, now));
    }
  }

  /** One round, for a lawyer the loop has not reached yet, keeps what InviteProgress states. */
  lemma {:induction false} InviteOneProgress(cases: map<CaseId, Case>, proposals: map<RecordId, ProposalModel.Proposal>,
                                            start: map<RecordId, Invitation>, caseId: CaseId, done: seq<UserId>,
                                            l: UserId, clientId: UserId, now: nat, run: InviteRun)
    requires caseId in cases && cases[caseId].clientId == clientId
    requires InviteProgress(cases, proposals, start, caseId, done, clientId, now, run) && l !in done
    ensures InviteProgress(cases, proposals, start, caseId, done + [l], clientId, now, InviteOne(run, caseId, l, clientId, now))
  {
    var after := InviteOne(run, caseId, l, clientId, now);
    if HasInvitation(run.invitations, caseId, l) {
      InviteStep(start, run.invitations, after.invitations, caseId, done, l, clientId, now, None);
    } else {
      InsertInvitationKeepsValid(cases, run.invitations, run.nextId, NewInvitation(caseId, l, clientId, now));
      InviteStep(start, run.invitations, after.invitations, caseId, done, l, clientId, now, Some(run.nextId));
    }
  }

  /** Inserting an invitation for a lawyer the case has not invited keeps the invitation invariant. */
  lemma {:induction false} InsertInvitationKeepsValid(cases: map<CaseId, Case>, invitations: map<RecordId, Invitation>,
                                                     id: RecordId, inv: Invitation)
    requires InvitationsValid(cases, invitations) && id !in invitations
    requires inv.caseId in cases && inv.clientId == cases[inv.caseId].clientId
    requires !HasInvitation(invitations, inv.caseId, inv.lawyerId)
    ensures InvitationsValid(cases, invitations[id := inv])
  {
    forall k | k in invitations
      ensures invitations[k].caseId != inv.caseId || invitations[k].lawyerId != inv.lawyerId
    {
    }
  }

  /** One round of the invitation loop extends what it has done by the lawyer it reached. */
  lemma {:induction false} InviteStep(start: map<RecordId, Invitation>, before: map<RecordId, Invitation>,
                                     after: map<RecordId, Invitation>, caseId: CaseId, done: seq<UserId>,
                                     l: UserId, clientId: UserId, now: nat, created: Option<RecordId>)
    requires InvitedSoFar(start, before, caseId, done, clientId, now) && l !in done
    requires created.None? <==> HasInvitation(before, caseId, l)
    requires created.None? ==> after == before
    requires created.Some? ==>
               && created.value !in before
               && after == before[created.value := NewInvitation(caseId, l, clientId, now)]
    requires HasInvitation(after, caseId, l)
    ensures InvitedSoFar(start, after, caseId, done + [l], clientId, now)
    ensures |Uninvited(start, caseId, done + [l])| == |Uninvited(start, caseId, done)| + (if created.Some? then 1 else 0)
  {
    StillUninvited(start, before, caseId, done, l);
    UninvitedGrows(start, caseId, done, l);
    assert Uninvited(start, caseId, done) <= Uninvited(start, caseId, done + [l]);
    if created.Some? {
      var inv := NewInvitation(caseId, l, clientId, now);
      InsertInvitationCounts(before, created.value, inv, caseId);
      KeepsInvitations(before, after, caseId, done);
      assert l in Uninvited(start, caseId, done + [l]);
    }
  }

  /** Invitations only added to keep every lawyer invited before invited. */
  lemma {:induction false} KeepsInvitations(before: map<RecordId, Invitation>, after: map<RecordId, Invitation>,
                                           caseId: CaseId, ls: seq<UserId>)
    requires forall id :: id in before ==> id in after && after[id] == before[id]
    requires forall l :: l in ls ==> HasInvitation(before, caseId, l)
    ensures forall l :: l in ls ==> HasInvitation(after, caseId, l)
  {
    forall l | l in ls
      ensures HasInvitation(after, caseId, l)
    {
      var id :| id in before && before[id].caseId == caseId && before[id].lawyerId == l;
      assert id in after && after[id] == before[id];
    }
  }

  /**
   * A lawyer the loop has not reached holds an invitation now exactly when they held one before
   * the loop: the loop only adds invitations for lawyers it has reached.
   */
  lemma {:induction false} StillUninvited(start: map<RecordId, Invitation>, now: map<RecordId, Invitation>,
                                         caseId: CaseId, done: seq<UserId>, l: UserId)
    requires l !in done
    requires forall id :: id in start ==> id in now && now[id] == start[id]
    requires forall id :: id in now && id !in start ==> now[id].lawyerId in done
    ensures HasInvitation(now, caseId, l) <==> HasInvitation(start, caseId, l)
  {
    if HasInvitation(now, caseId, l) {
      var id :| id in now && now[id].caseId == caseId && now[id].lawyerId == l;
      assert id in start;
    }
    if HasInvitation(start, caseId, l) {
      var id :| id in start && start[id].caseId == caseId && start[id].lawyerId == l;
      assert id in now && now[id] == start[id];
    }
  }

  /** Reaching one more lawyer adds them to the uninvited ones exactly when they held no invitation at the start. */
  lemma {:induction false} UninvitedGrows(start: map<RecordId, Invitation>, caseId: CaseId, done: seq<UserId>, l: UserId)
    requires l !in done
    ensures |Uninvited(start, caseId, done + [l])|
            == |Uninvited(start, caseId, done)| + (if HasInvitation(start, caseId, l) then 0 else 1)
  {
    if HasInvitation(start, caseId, l) {
      assert Uninvited(start, caseId, done + [l]) == Uninvited(start, caseId, done);
    } else {
      assert Uninvited(start, caseId, done + [l]) == Uninvited(start, caseId, done) + {l};
    }
  }

  /**
   * inviteLawyersService. Refuses, in this order: a missing case (NotFound), a caller who does
   * not own it (Unauthorized), a case that is neither pending nor active, and a list with no
   * verified, undeleted lawyer in it (both BadRequest); a refusal changes nothing. Otherwise
   * every valid lawyer is invited or, holding an invitation already, skipped, and the case's
   * counter rises by the number invited.
   */
  method InviteLawyers(db: Database, caseId: CaseId, lawyerIds: seq<UserId>, clientId: UserId, now: nat)
    returns (r: Result<InviteSummary>)
    requires db.Valid()
    modifies db`cases, db`invitations, db`nextId
    ensures db.Valid()
    ensures caseId !in old(db.cases) ==> r == Err(NotFound)
    ensures caseId in old(db.cases) && old(db.cases[caseId]).clientId != clientId ==> r == Err(Unauthorized)
    ensures caseId in old(db.cases) && old(db.cases[caseId]).clientId == clientId
              && old(db.cases[caseId]).status !in {CasePending, CaseActive}
            ==> r == Err(BadRequest(CANNOT_INVITE))
    ensures r.Ok? <==> caseId in old(db.cases) && old(db.cases[caseId]).clientId == clientId
                       && old(db.cases[caseId]).status in {CasePending, CaseActive}
                       && ValidLawyers(db.users, lawyerIds) != []
    ensures r.Err? ==> db.cases == old(db.cases) && db.invitations == old(db.invitations) && db.nextId == old(db.nextId)
    ensures r.Ok? ==>
              var valid := ValidLawyers(db.users, lawyerIds);
              && r.value.invited + r.value.skipped == |valid|
              && r.value.invited == |Uninvited(old(db.invitations), caseId, valid)|
              && InvitedSoFar(old(db.invitations), db.invitations, caseId, valid, clientId, now)
              && db.cases == CountInvitations(old(db.cases), caseId, r.value.invited)
  {
    if caseId !in db.cases {
      return Err(NotFound);
    }
    if db.cases[caseId].clientId != clientId {
      return Err(Unauthorized);
    }
    if db.cases[caseId].status != CasePending && db.cases[caseId].status != CaseActive {
      return Err(BadRequest(CANNOT_INVITE));
    }
    var valid := ValidLawyers(db.users, lawyerIds);
    if valid == [] {
      return Err(BadRequest(NO_VALID_LAWYERS));
    }
    var invited, skipped := InviteValidLawyers(db, caseId, valid, clientId, now);
    return Ok(InviteSummary(invited, skipped));
  }

  /** The part of inviteLawyersService after its checks: invite every valid lawyer and count the invitations on the case. */
  method InviteValidLawyers(db: Database, caseId: CaseId, valid: seq<UserId>, clientId: UserId, now: nat)
    returns (invited: nat, skipped: nat)
    requires db.Valid() && caseId in db.cases && db.cases[caseId].clientId == clientId
    requires Distinct(valid)
    modifies db`cases, db`invitations, db`nextId
    ensures db.Valid()
    ensures invited + skipped == |valid|
    ensures invited == |Uninvited(old(db.invitations), caseId, valid)|
    ensures InvitedSoFar(old(db.invitations), db.invitations, caseId, valid, clientId, now)
    ensures db.cases == CountInvitations(old(db.cases), caseId, invited)
  {
    var run := CreateInvitations(db.invitations, db.nextId, caseId, valid, clientId, now);
    InviteAllProgress(db.cases, db.proposals, db.invitations, db.nextId, caseId, valid, clientId, now);
    InvitationsAddedKeepValid(db.cases, db.invitations, run.invitations, db.proposals, db.timelines, run.nextId, caseId, run.invited);
    db.RecordInvitations(caseId, run.invitations, run.nextId, run.invited);
    invited, skipped := run.invited, run.skipped;
  }

  // ---------------------------------------------------------------- updateInvitationStatus

  /**
   * updateInvitationStatusService: a target outside the four invitation statuses is a
   * BadRequest; an invitation that is missing or not the caller's is NotFound; one already
   * accepted or declined is a BadRequest. Otherwise it takes the target status, whichever it
   * is (pending included), and is stamped as answered now.
   */
  method UpdateInvitationStatus(db: Database, invitationId: RecordId, lawyerId: UserId, newStatus: string, now: nat)
    returns (r: Result<Invitation>)
    requires db.Valid()
    modifies db`invitations
    ensures db.Valid()
    ensures ParseInvitationStatus(newStatus).None? ==> r == Err(BadRequest(INVALID_INVITATION_STATUS))
    ensures ParseInvitationStatus(newStatus).Some?
            && (invitationId !in old(db.invitations) || old(db.invitations[invitationId]).lawyerId != lawyerId)
            ==> r == Err(NotFound)
    ensures r.Ok? <==> ParseInvitationStatus(newStatus).Some?
                       && invitationId in old(db.invitations) && old(db.invitations[invitationId]).lawyerId == lawyerId
                       && old(db.invitations[invitationId]).status !in {InvAccepted, InvDeclined}
    ensures r.Err? ==> db.invitations == old(db.invitations)
    ensures r.Ok? ==>
              && r.value == old(db.invitations[invitationId]).(status := ParseInvitationStatus(newStatus).value, respondedAt := Some(now))
              && InvitationStatusName(r.value.status) == newStatus
              && db.invitations == old(db.invitations)[invitationId := r.value]
  {
    var target := ParseInvitationStatus(newStatus);
    if target.None? {
      return Err(BadRequest(INVALID_INVITATION_STATUS));
    }
    if invitationId !in db.invitations || db.invitations[invitationId].lawyerId != lawyerId {
      return Err(NotFound);
    }
    var inv := db.invitations[invitationId];
    if inv.status == InvAccepted || inv.status == InvDeclined {
      return Err(BadRequest(ALREADY_RESPONDED));
    }
    var answered := inv.(status := target.value, respondedAt := Some(now));
    db.PutInvitation(invitationId, answered);
    return Ok(answered);
  }

  // ---------------------------------------------------------------- updateCaseStatus

  /**
   * updateCaseStatusService: a target outside the five case statuses is a BadRequest, a case
   * that is missing or not the caller's is NotFound; otherwise the case takes the target
   * status, whatever its current one (no order between the statuses is enforced).
   */
  method UpdateCaseStatus(db: Database, caseId: CaseId, clientId: UserId, newStatus: string) returns (r: Result<Case>)
    requires db.Valid()
    modifies db`cases
    ensures db.Valid()
    ensures ParseCaseStatus(newStatus).None? ==> r == Err(BadRequest(INVALID_CASE_STATUS))
    ensures r.Ok? <==> ParseCaseStatus(newStatus).Some? && caseId in old(db.cases) && old(db.cases[caseId]).clientId == clientId
    ensures r.Err? ==> r.error in {BadRequest(INVALID_CASE_STATUS), NotFound} && db.cases == old(db.cases)
    ensures r.Ok? ==>
              && r.value == old(db.cases[caseId]).(status := ParseCaseStatus(newStatus).value)
              && CaseStatusName(r.value.status) == newStatus
              && db.cases == old(db.cases)[caseId := r.value]
  {
    var target := ParseCaseStatus(newStatus);
    if target.None? {
      return Err(BadRequest(INVALID_CASE_STATUS));
    }
    if caseId !in db.cases || db.cases[caseId].clientId != clientId {
      return Err(NotFound);
    }
    var c := db.cases[caseId].(status := target.value);
    db.UpdateCase(caseId, c);
    return Ok(c);
  }
}
