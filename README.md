# uplaw case engagement, modelled in Dafny

uplaw is a marketplace that connects clients with lawyers. A client posts a legal case and invites
verified lawyers to it. An invited lawyer submits one proposal (fee structure and assessment). The
client accepts one proposal, which assigns the lawyer, opens the case's five-phase timeline and turns
the competing proposals down. The assigned lawyer then works through the timeline:

- intake;
- filing;
- trial preparation;
- a court hearing made of sessions (sub-phases);
- the outcome.

Each step may carry uploaded documents. Around this engagement lifecycle sit:

- the lawyer's five-step profile and the client's profile with its one-time identity fields;
- one-time passwords;
- refresh tokens;
- the role and permission gates in front of the routes.

The project models these parts as follows:

- Stored documents are datatype values.
- Each MongoDB collection is a map, or a sequence where query order matters, held in a class:
  - `Store.Database` holds the cases, invitations, proposals, timelines, accounts and profiles;
  - `OtpModel.OtpStore` holds the one-time passwords;
  - `RefreshTokenModel.TokenStore` holds the refresh tokens;
  - `ProfileHelper.Accounts` holds the accounts and client profiles.
- The service operations are methods that change those fields.
- The storage gateway (Cloudinary) is the class `Cloud.BlobStore`, reduced to its set of live blob
  ids. An upload's verdict (accepted or rejected) is a parameter of the operation.
- The clock (`now`, in milliseconds) and the random OTP code are parameters.
- Errors are the typed `Errors.Error` values the services throw, returned in a `Result`.

`Store.Database.Valid()` states what every service operation keeps:

- the unique (case, lawyer) indexes of invitations and proposals;
- every invitation and proposal belongs to a stored case of the same client;
- a case's `invitationCount` equals its number of invitations;
- a case with an assigned lawyer has a timeline;
- every timeline is well formed: a completed prefix of phases, one ongoing phase, and pending phases
  after it.

Where the code and the system's written description disagree, the model follows the code:

- `inviteLawyersService` refuses a caller who does not own the case with `UNAUTHORIZED`, not
  `Forbidden`. Both answer 403.
- Submitting a phase of a case without a timeline is refused as "phase not ongoing" (BadRequest),
  because the compare-and-set finds no document. It is not refused as NotFound.
- "At most one accepted proposal per case" is not enforced: a withdrawn proposal can still be
  accepted after a sibling was (`ProposalService.TwoAcceptedProposals`).
- `proposalCount` is not a count of live proposals (`ProposalService.WithdrawTwice`).
- An accepted case is `active`, not `assigned`, while it names its lawyer.

## Model

| member | source | states |
|---|---|---|
| Constants.TimingConstants | utils/constants.js:22-47 | three OTP attempts, a 60 s resend cooldown, a 10-minute OTP expiry and a 48 h refresh-token lifetime, in the millisecond unit of `now` |
| Constants.StepPercentageIsTwentyPerStep | utils/constants.js:60-66 | LAWYER_STEP_PERCENTAGE is defined exactly on steps 1..5 and maps step i to 20·i |
| Constants.PermissionsOf | middleware/rbac.middleware.js:39 | `ROLE_PERMISSIONS[role] \|\| []`: an unknown role holds nothing, and every permission held is one of PERMISSIONS |
| Constants.RolePermissionTable | utils/constants.js:113-123 | admin holds every permission; a client holds exactly client-profile read and write, a lawyer exactly lawyer-profile read and write |
| Constants.NextPhase | utils/constants.js:180-186 | the outcome phase has no successor; every other phase unlocks the phase one rank later |
| Constants.UnlockChain | utils/constants.js:180-186 | unlocking repeatedly from a phase terminates: it visits each later phase once, in rank order, and ends at the outcome phase |
| Constants.PhaseOfSlug | utils/constants.js:171-177 | a slug names a phase exactly when it is one of the table's keys |
| Constants.SlugTableIsBijective | utils/constants.js:171-177 | the slug table has exactly five entries and is a bijection onto the five phase keys |
| Constants.ParseOutcome | utils/constants.js:164-168 | an outcome is accepted exactly when it is won, settled or dismissed |
| Errors.StatusCode | error/unauthrorized.error.js:10 | every error answers a code between 400 and 500; the code is 403 exactly for Unauthorized (despite its name) and Forbidden, 400 exactly for BadRequest and validation errors, and 409 exactly for a duplicate key |
| Common.Trim | model/case.model.js:39-50 | the `trim: true` setter over every ECMAScript whitespace and line-terminator code point: never longer, empty exactly for all-whitespace input, no whitespace left at either end |
| Common.WideSpaceIsBlank | model/case.model.js:39-50 | the setter also strips non-ASCII whitespace: an ideographic space, a byte order mark or a line separator alone trims to empty, and no-break and mathematical spaces around a word are dropped |
| Common.TrimKeepsMiddle | model/case.model.js:39-50 | trimming keeps one contiguous piece of the string and drops only whitespace on both sides |
| Common.TrimIsIdempotent | model/case.model.js:39-50 | trimming twice is trimming once |
| Common.TrimmedIsFixedPoint | model/case.model.js:39-50 | the strings with no whitespace at either end are exactly those trimming leaves unchanged |
| Common.Take | services/case.services.js:156 | `slice(0, n)`: the first min(n, length) elements |
| CaseModel.ParseCaseStatus | model/case.model.js:4-10 | a status string is accepted only under the name of the status it yields |
| CaseModel.CaseStatusNamesRoundTrip | model/case.model.js:99-103 | each of the five statuses is accepted under its own name |
| CaseModel.MakeCase | model/case.model.js:29-124 | a case built from a valid body passes the schema, is pending, is owned by the caller, carries the trimmed title and description, and defaults to medium urgency |
| CaseModel.TrimAll | model/case.model.js:93-96 | each preferred language is trimmed, and the list keeps its length |
| CaseModel.BuildCase | model/case.model.js:29-124 | saving fails with a validation error exactly when the body breaks the schema (required, trimmed, bounded text; budget and urgency enums) |
| CaseModel.NewCase | model/case.model.js:99-124 | a new case is pending, owned by the caller, unassigned and has both counters at zero; it exists exactly for a valid body |
| CaseModel.NewCaseAsWritten | services/case.services.js:93-105 | the spread body overrides only clientId and status, so the assignment and counters come from the request |
| CaseModel.AsWrittenDiffersOnlyByBody | services/case.services.js:93-97 | the case as written equals the schema's case on bodies without the four extra fields, and differs whenever a valid body names a lawyer |
| CaseModel.FindByClient | model/case.model.js:160-166 | exactly the client's cases, narrowed to one status when a non-empty status is given |
| CaseModel.FindByClientFilters | model/case.model.js:160-166 | any status filter returns a subset of the unfiltered query, and an unknown status returns nothing |
| InvitationModel.ParseInvitationStatus | model/caseinvitation.model.js:4-9 | an invitation status string is accepted only under its own name |
| InvitationModel.InvitationStatusNamesRoundTrip | model/caseinvitation.model.js:4-36 | each of the four statuses is accepted under its own name |
| InvitationModel.NewInvitation | model/caseinvitation.model.js:11-46 | a new invitation is pending, never viewed and never answered |
| InvitationModel.MarkAsViewed | model/caseinvitation.model.js:82-88 | a pending invitation becomes viewed at `now`; any other is unchanged |
| InvitationModel.MarkAsViewedIsIdempotent | model/caseinvitation.model.js:82-88 | viewing twice is viewing once, and a viewed invitation is no longer pending |
| InvitationModel.FindByLawyer | model/caseinvitation.model.js:91-106 | exactly the lawyer's invitations, narrowed to one status when a non-empty status is given |
| InvitationModel.FindByLawyerUnknownStatus | model/caseinvitation.model.js:91-106 | a status that names no invitation status finds nothing |
| ProposalModel.ParseProposalStatus | model/proposal.model.js:4-10 | a proposal status string is accepted only under its own name |
| ProposalModel.ProposalStatusNamesRoundTrip | model/proposal.model.js:110-114 | each of the five statuses is accepted under its own name |
| ProposalModel.Fees | model/proposal.model.js:13-38 | the total fee and expected date are kept, and each missing optional amount defaults to 0 |
| ProposalModel.NewProposal | model/proposal.model.js:42-129 | a new proposal exists exactly when the body passes the schema; it is pending, never viewed or answered, has a non-empty assessment of at most 2000 characters, and names the case, lawyer and client |
| ProposalModel.MarkAsViewed | model/proposal.model.js:170-176 | a pending proposal becomes viewed at `now`; any other is unchanged |
| ProposalModel.MarkAsViewedIsIdempotent | model/proposal.model.js:170-176 | viewing twice is viewing once |
| ProposalModel.FindByClient | model/proposal.model.js:179-198 | exactly the client's proposals, narrowed to one status when a non-empty status is given |
| ProposalModel.FindByLawyer | model/proposal.model.js:200-215 | exactly the lawyer's proposals, narrowed to one status when a non-empty status is given |
| ProposalModel.StatusFiltersPartition | model/proposal.model.js:179-198 | each of a client's proposals is found under its own status name and under no other |
| CaseTimeline.CalculateProgress | model/caseTimeline.model.js:174-184 | `Math.round(completed / 5 * 100)` is exactly 20 per completed phase, so a multiple of 20 between 0 and 100 |
| CaseTimeline.ProgressExtremes | model/caseTimeline.model.js:174-184 | progress is 100 exactly when every phase is completed, and 0 exactly when none is |
| CaseTimeline.OngoingPhaseIsUnique | model/caseTimeline.model.js:90-165 | in a well-shaped timeline at most one phase is ongoing, and it is the phase right after the completed prefix |
| CaseTimeline.NewTimeline | services/timeline.services.js:28-52 | a new timeline is well formed, has intake ongoing and no completed phase (progress 0) |
| CaseTimeline.CompletePhase | services/timeline.services.js:240-263 | the phase is completed with the given data; its successor leaves pending for ongoing and otherwise keeps its status; no other phase changes |
| CaseTimeline.AppendSubPhase | services/timeline.services.js:392-401 | exactly one session is pushed at the end and no status changes |
| CaseTimeline.CompleteHearing | services/timeline.services.js:478-498 | the hearing is completed and the outcome phase becomes ongoing only if it was pending; nothing else changes |
| CaseTimeline.CompletePhaseKeepsShape | services/timeline.services.js:240-263 | completing the ongoing phase keeps the timeline well formed and adds one completed phase (20 points of progress) |
| CaseTimeline.AppendSubPhaseKeepsShape | services/timeline.services.js:392-401 | a session added to the ongoing hearing keeps the timeline well formed and leaves the progress unchanged |
| CaseTimeline.CompleteHearingKeepsShape | services/timeline.services.js:478-498 | closing the ongoing hearing that has a session keeps the timeline well formed, adds 20 points and opens the outcome phase |
| CaseTimeline.CompletedPhaseStaysClosed | services/timeline.services.js:240-243 | after a submission the phase and every earlier one are completed, so a second compare-and-set for it cannot match |
| TimelineService.CreateTimeline | services/timeline.services.js:14-55 | an existing timeline is returned unchanged; a missing case is NotFound; otherwise the new timeline is stored |
| TimelineService.GetTimeline | services/timeline.services.js:64-135 | NotFound for a missing case, Forbidden for anyone but its client or assigned lawyer, NotFound without a timeline; otherwise the timeline with its progress |
| TimelineService.AssignedLawyerSeesTimeline | services/timeline.services.js:76-88 | in a consistent store the assigned lawyer can always read a well-formed timeline of the case |
| TimelineService.UploadOne | services/timeline.services.js:181-190 | a rejected upload changes nothing; an accepted one yields a document for the file under a fresh, now live blob id |
| TimelineService.UploadDocuments | services/timeline.services.js:176-211 | when any upload fails, the error propagates and the live blobs are as before; otherwise one fresh document per file, all of them live |
| TimelineService.DropUploads | services/timeline.services.js:198-204 | deleting this call's uploads restores the live blobs |
| TimelineService.RollBack | services/timeline.services.js:277-313 | the double delete after a failed compare-and-set still restores the live blobs exactly |
| TimelineService.SubmitPrecheck | services/timeline.services.js:148-173 | in order: an unknown slug or the hearing slug is BadRequest, a missing case NotFound, a non-assignee Forbidden, an outcome phase without a valid outcome BadRequest |
| TimelineService.PhaseRecord | services/timeline.services.js:215-237 | the stored data carries the documents, the time, the lawyer as author, and remarks defaulting to "" |
| TimelineService.SubmitPhaseData | services/timeline.services.js:146-315 | succeeds exactly when the guards pass, every upload is accepted and the phase is still ongoing; guards fail before any upload; failures leave timelines, cases and live blobs unchanged; success completes the phase, adds 20 to the progress and, for the outcome phase, completes the case |
| TimelineService.CommitPhase | services/timeline.services.js:176-301 | the uploads, then the compare-and-set: succeeds exactly when every upload is accepted and the phase is still ongoing; a phase that is no longer ongoing is BadRequest with every upload deleted |
| TimelineService.StorePhase | services/timeline.services.js:265-293 | the matched update stores the completed phase (+20 progress) and marks the case completed for the outcome phase only |
| TimelineService.SessionRecord | services/timeline.services.js:381-389 | the session has the trimmed, non-empty name, both remarks trimmed (empty when absent), the documents, the time and the lawyer as author |
| TimelineService.AddCourtHearingSubPhase | services/timeline.services.js:325-446 | NotFound, Forbidden or BadRequest (blank name) before any upload; a rejected upload fails, then a hearing that is not ongoing is BadRequest; succeeds exactly when none of these holds; success appends one session to the hearing, reports the new count and leaves statuses and progress unchanged |
| TimelineService.CompleteCourtHearing | services/timeline.services.js:454-517 | NotFound, Forbidden, NotFound for a missing timeline, BadRequest without sessions, BadRequest for a hearing that is not ongoing; succeeds exactly when none of these holds; success closes the hearing, opens the outcome phase and adds 20 to the progress |
| Store.Database.FreshId | model/case.model.js:29 | a record id no stored case, invitation or proposal has |
| Store.Database.InsertCase | model/case.model.js:99-124 | a case stored under a fresh id keeps the store consistent when it is unassigned with a zero counter |
| Store.Database.PutInvitation | model/caseinvitation.model.js:52 | an invitation rewritten for the same case, lawyer and client keeps the store consistent |
| Store.Database.PutTimeline | model/caseTimeline.model.js:82-88 | a well-formed timeline of a stored case is kept under its caseId, replacing any earlier one (the unique caseId index) |
| Store.Database.UpdateCase | model/case.model.js:99-124 | a case rewritten with the same owner and counter, naming a lawyer only when it has a timeline, keeps the store consistent |
| Store.Database.InsertProposal | model/proposal.model.js:137 | a proposal for a pair that has none is stored under a fresh id; the unique pair index is kept |
| Store.Database.RewriteProposals | model/proposal.model.js:137 | a rewrite that keeps every proposal's parties and schema keeps the store consistent |
| Store.Database.RecordInvitations | services/case.services.js:305-327 | the invitations written for one case and the `$inc` of its counter are stored together |
| Store.InsertInvitationCounts | model/case.model.js:121-124 | a fresh invitation adds one to its own case's invitations and none to any other |
| Store.UpdateInvitationCounts | model/case.model.js:121-124 | rewriting an invitation within its case changes no case's invitations |
| Store.CaseRewriteKeepsValid | model/case.model.js:99-124 | rewriting a case as UpdateCase allows keeps every store invariant |
| Store.CaseInsertKeepsValid | model/case.model.js:117-124 | inserting an unassigned case with a zero counter keeps every store invariant |
| Store.InvitationRewriteKeepsValid | model/caseinvitation.model.js:52 | rewriting an invitation for the same parties keeps the store invariants |
| Store.ProposalsRewriteKeepsValid | model/proposal.model.js:137 | a rewrite that keeps the parties keeps the proposal invariants |
| Store.ProposalInsertKeepsValid | model/proposal.model.js:137 | inserting a proposal for a pair without one keeps the proposal invariants |
| Store.CountInvitations | services/case.services.js:325-327 | the `$inc` raises the case's counter by n and keeps the set of stored cases |
| Store.AddedToOneCaseOnly | services/case.services.js:305-322 | adding invitations to one case leaves every other case's invitations as they were |
| Store.InvitationsAddedKeepValid | services/case.services.js:305-327 | adding invitations to one case and counting them on it keeps the store consistent |
| CaseService.CreateCase | services/case.services.js:83-107 | a rejected voice note is swallowed; a valid body yields a pending, unassigned case with zero counters under a fresh id; an invalid one stores nothing, though an uploaded voice note stays live |
| CaseService.MassAssignmentBreaksStore | services/case.services.js:93-97 | the case as written, from a valid body with an invitation counter of 5 or a named lawyer, breaks the counter or the timeline invariant |
| CaseService.MassAssignmentExample | services/case.services.js:93-97 | a concrete valid body that yields, as written, an assigned case with invitationCount 5 |
| CaseService.MatchingProfiles | services/case.services.js:136-149 | exactly the complete profiles of verified, undeleted accounts that practise in the category, never more than are stored |
| CaseService.Cards | services/case.services.js:24-44 | one client-facing card per profile; jurisdiction and languages only on request |
| CaseService.CaseStatusFilter | services/case.services.js:122-124 | only a non-empty, known case status narrows the query |
| CaseService.GetClientCases | services/case.services.js:120-170 | exactly the caller's cases (filtered), each with the first at most five matching lawyers, fewer only when no more match |
| CaseService.SuggestionsMatchCategory | services/case.services.js:154-156 | every suggested lawyer practises in the case's category and has a complete, verified profile |
| CaseService.ListSuggestionsArePrefix | services/case.services.js:154-160 | the list path and the per-case path suggest the same lawyers, in the same order |
| CaseService.GetCaseById | services/case.services.js:184-217 | NotFound for a missing case; a non-owning client or a lawyer neither invited nor assigned is Unauthorized; any other role reads it |
| CaseService.InvitedLawyerSeesCase | services/case.services.js:204-213 | once invited, a lawyer can read the case whatever became of the invitation |
| CaseService.GetSuggestedLawyers | services/case.services.js:229-259 | NotFound, Unauthorized for a non-owner; otherwise the i-th card is the extended card (with jurisdiction and languages) of the i-th matching lawyer, uncapped |
| CaseService.InvitationStatusFilter | services/case.services.js:347-350 | only a non-empty, known invitation status narrows the query |
| CaseService.GetLawyerReceivedCases | services/case.services.js:346-366 | exactly the lawyer's (filtered) invitations whose case still exists |
| CaseService.UnknownStatusListsEverything | services/case.services.js:346-366 | in a consistent store an unknown status lists every invitation of the lawyer |
| CaseService.ValidLawyers | services/case.services.js:288-295 | each verified, undeleted lawyer the list names, once |
| CaseService.InviteOne | services/case.services.js:306-321 | one round of the loop: the lawyer ends up invited and counts as invited exactly when they held no invitation, otherwise as skipped |
| CaseService.InviteAll | services/case.services.js:305-322 | the loop counts every lawyer once, as invited or skipped |
| CaseService.CreateInvitations | services/case.services.js:302-322 | the loop computes InviteAll over the valid lawyers, from zero counters |
| CaseService.Uninvited | services/case.services.js:314-318 | the listed lawyers that hold no invitation for the case |
| CaseService.InviteAllProgress | services/case.services.js:305-322 | over distinct lawyers the loop keeps the invitation invariants, invites everyone it reaches and counts as invited exactly those who held no invitation |
| CaseService.InviteLawyers | services/case.services.js:272-334 | in order: NotFound, Unauthorized, BadRequest for a closed case, BadRequest without valid lawyers, with nothing changed; otherwise invited + skipped = valid lawyers and the counter rises by exactly `invited` |
| CaseService.InviteValidLawyers | services/case.services.js:301-327 | after the checks, every valid lawyer holds an invitation, only new pending ones are added, and the counter rises by the number created |
| CaseService.UpdateInvitationStatus | services/case.services.js:379-403 | BadRequest outside the four statuses, NotFound for another lawyer's or a missing invitation, BadRequest once accepted or declined; otherwise any named status, pending included, answered now |
| CaseService.UpdateCaseStatus | services/case.services.js:416-431 | BadRequest outside the five statuses, NotFound for a missing or foreign case; otherwise the named status whatever the current one |
| ProposalService.Counted | services/proposal.services.js:59-61 | the `$inc` of the proposal counter changes nothing else |
| ProposalService.CountInCase | services/proposal.services.js:356-358 | the counter of a stored case moves by delta and the store stays consistent |
| ProposalService.Assigned | services/proposal.services.js:300-304 | the accepted case is active, assigned to the lawyer, assigned now, and otherwise unchanged |
| ProposalService.CreatePrecheck | services/proposal.services.js:22-56 | in order: NotFound, BadRequest for a closed case, Unauthorized without a pending/viewed/accepted invitation, BadRequest for a second proposal, then the schema; success is a pending proposal to the case's client |
| ProposalService.Accepted | services/proposal.services.js:64-67 | the invitation becomes accepted and is left alone when it already is |
| ProposalService.CreateProposal | services/proposal.services.js:18-70 | a refusal writes nothing; success stores the proposal under a fresh id, raises the counter by one and accepts the lawyer's live invitation; nothing else changes |
| ProposalService.StoreProposal | services/proposal.services.js:49-67 | the three writes of a created proposal keep the store consistent |
| ProposalService.SecondProposalRefused | services/proposal.services.js:43-46 | after one proposal is created, another by the same lawyer for the same case is refused as a duplicate |
| ProposalService.RespondPrecheck | services/proposal.services.js:274-286 | NotFound unless the proposal is the caller's; BadRequest once accepted or rejected; a withdrawn proposal passes |
| ProposalService.Answer | services/proposal.services.js:288-294 | "accept" accepts and any other action rejects; answered now; a non-empty note replaces the stored one, trimmed |
| ProposalService.RejectSiblings | services/proposal.services.js:311-322 | every other pending or viewed proposal of the case is rejected now with "Another proposal was accepted"; no other proposal changes |
| ProposalService.NoOpenSiblingAfterAccept | services/proposal.services.js:311-322 | after an acceptance no other proposal of the case is open, and withdrawn, rejected and accepted ones are untouched |
| ProposalService.RejectSiblingsKeepsParties | services/proposal.services.js:311-322 | the cascade keeps every proposal's case, lawyer, client and schema |
| ProposalService.RespondToProposal | services/proposal.services.js:273-326 | refusals and an over-long note write nothing; a rejection writes only the proposal; an acceptance assigns the case, keeps or creates its timeline and turns the open siblings down |
| ProposalService.StoreAnswer | services/proposal.services.js:296-323 | the answer's writes, and for an acceptance its cascade, keep the store consistent |
| ProposalService.AcceptCascade | services/proposal.services.js:299-323 | the timeline exists, the case is active and assigned, and the open siblings are rejected |
| ProposalService.AssignIn | services/proposal.services.js:300-304 | the case update of an acceptance on a case with a timeline |
| ProposalService.RejectSiblingsIn | services/proposal.services.js:311-322 | the updateMany of an acceptance on the stored proposals |
| ProposalService.TwoAcceptedProposals | services/proposal.services.js:283-323 | a withdrawn proposal can be accepted after a sibling was, leaving two accepted proposals on one case |
| ProposalService.WithdrawPrecheck | services/proposal.services.js:335-352 | NotFound unless the proposal is the caller's; BadRequest when accepted or already withdrawn; otherwise it becomes withdrawn |
| ProposalService.WithdrawProposal | services/proposal.services.js:334-361 | a refusal writes nothing; success withdraws the proposal and lowers its case's counter by one |
| ProposalService.WithdrawTwice | services/proposal.services.js:283-358 | withdraw, reject, withdraw again is allowed, so one proposal can lower the counter twice |
| ProposalService.GetProposalById | services/proposal.services.js:174-263 | NotFound, Unauthorized for anyone but its client or lawyer; the client's read stores a pending proposal as viewed now and returns the pre-read copy with only the status patched; the lawyer's read changes nothing |
| ProposalService.ProposalStatusFilter | services/proposal.services.js:86-88 | only a known proposal status narrows the query |
| ProposalService.GetReceivedProposals | services/proposal.services.js:79-137 | exactly the client's proposals, narrowed to a case and to a known status when given |
| ProposalService.GetSentProposals | services/proposal.services.js:145-165 | exactly the lawyer's proposals, narrowed to a known status when given |
| ProposalService.UnknownStatusListsAllSent | services/proposal.services.js:148-150 | an unknown status filters nothing out |
| LawyerProfileModel.ValidateStep | model/lawyerprofile.model.js:199-209 | no step outside 1..5 validates; step 5 validates exactly with at least two CNIC documents |
| LawyerProfileModel.HighestValidUpTo | model/lawyerprofile.model.js:221-228 | the highest validating step up to i, or 0 when none does |
| LawyerProfileModel.UpdateCompletion | model/lawyerprofile.model.js:212-240 | each step's verdict is recorded; the step to continue at is min(highest + 1, 5), the percentage is 20 × the highest valid step, complete exactly when all five validate; nothing else changes |
| LawyerProfileModel.HighestValidStepIs | model/lawyerprofile.model.js:221-228 | the highest valid step is the valid step with none above it |
| LawyerProfileModel.StepsIgnoreCompletionFields | model/lawyerprofile.model.js:199-209 | the step rules never read the completion fields they determine |
| LawyerProfileModel.CompleteMeansFull | model/lawyerprofile.model.js:230-232 | a complete profile is at 100% and at step 5 |
| LawyerProfileModel.PercentageFollowsHighestStep | model/lawyerprofile.model.js:231-232 | a profile with two CNIC documents but no date of birth reports 100% while it is not complete, because the percentage follows the highest valid step and not the count of valid steps |
| LawyerProfileModel.SaveLawyerProfile | model/lawyerprofile.model.js:59-246 | a save fails exactly when a modelled bound is broken (more than 7 services, years outside 0..60, an address or bio over 500 characters, a language outside the enum, a CNIC document kind other than front, back or other); otherwise every entered field is kept and the completion fields are recomputed from the input's step verdicts |
| ClientProfileModel.EmptyProfile | utils/profile.helper.utils.js:28 | a created profile belongs to the user and is not complete |
| ClientProfileModel.EveryFieldTracked | model/clientprofile.model.js:90-100 | completion inspects all nine tracked fields |
| ClientProfileModel.RoundedNinths | model/clientprofile.model.js:109 | Math.round(100·k/9), as an exact integer bound |
| ClientProfileModel.FiltersSplit | model/clientprofile.model.js:104-114 | the filled and the missing fields together number exactly the fields inspected, so no field is counted twice or skipped |
| ClientProfileModel.CalculateCompletion | model/clientprofile.model.js:89-126 | the missing fields are exactly the blank ones, the percentage is the rounded filled share, complete exactly when the four required fields are filled |
| ClientProfileModel.CompletionExtremes | model/clientprofile.model.js:109-114 | 100% exactly when nothing is missing, 0% exactly when everything is |
| ClientProfileModel.PreSaveFlagDiffersOnBlankValues | model/clientprofile.model.js:130-134 | a father's name of one space makes the pre-save flag true and the report incomplete |
| ClientProfileModel.PreSaveFlagAgreesOnTrimmedValues | model/clientprofile.model.js:130-134 | once the required fields went through the trim setter, the flag and the report agree |
| ClientProfileModel.SaveClientProfile | model/clientprofile.model.js:43-47 | a save fails exactly on the schema (CNIC pattern, enums, lengths); otherwise only the completeness flag is set |
| ClientService.OneTime | services/client.services.js:44-48 | a given value is written, trimmed, only while the field is empty; a non-empty field never changes |
| ClientService.Editable | services/client.services.js:53-58 | a given value always overwrites, trimmed; a missing one keeps the field |
| ClientService.Provided | services/client.services.js:51-52 | a given value always overwrites; a missing one keeps the field |
| ClientService.UpdatedUser | services/client.services.js:44-45 | only the two names change, each by the one-time rule |
| ClientService.UpdatedProfile | services/client.services.js:46-58 | the three one-time and eight editable fields follow their rules; owner, document and flag are untouched |
| ClientService.OneTimeFieldsStick | services/client.services.js:44-48 | once filled, fullName, cnic and fatherName survive every later request |
| ClientService.EmptyRequestChangesNothing | services/client.services.js:44-58 | a request with no field changes neither the account nor the profile |
| ClientService.AssignNames | services/client.services.js:44-45 | the assignments compute UpdatedUser |
| ClientService.AssignIdentity | services/client.services.js:46-48 | the assignments compute the one-time profile fields |
| ClientService.AssignDetails | services/client.services.js:51-57 | the assignments compute the editable fields stored as given |
| ClientService.AssignContact | services/client.services.js:53-58 | the assignments compute the trimmed editable fields |
| ClientService.UploadPicture | services/client.services.js:62-71 | a rejected picture fails with nothing changed; an accepted one names a fresh live blob, and the replaced blob is deleted |
| ClientService.UploadCnic | services/client.services.js:73-82 | a document is uploaded only when given and none is stored; a rejected upload fails; an accepted one names a fresh live blob; only fresh blobs are added |
| ClientService.Stage | services/client.services.js:41-83 | the field rules and both uploads; succeeds exactly when every triggered upload is accepted; the staged account and profile are the field rules' result; the picture is kept when none is sent and otherwise names a fresh blob; the CNIC document is kept unless one is sent and none is stored, in which case it names a fresh live blob |
| ClientService.SaveProfile | services/client.services.js:86-92 | the profile is stored only when it passes its validators, and the answer carries its completion |
| ClientService.Commit | services/client.services.js:85-92 | an account that fails its validators writes nothing; otherwise the account is written, the named stale blob (if any) deleted, and the profile stored exactly when it passes its validators, with the pre-save flag and its completion |
| ClientService.UpdateClientProfileAsWritten | services/client.services.js:37-93 | NotFound with nothing changed for a missing user; succeeds exactly when the uploads are accepted and the updated account and profile pass their validators; success stores the field rules' result, a picture kept or replaced by a fresh blob, a CNIC document kept or (when none was stored) a fresh one, both new blobs live whenever the stored picture named a live blob, and the pre-save completion flag; a failed CNIC upload after a new picture leaves the account naming a deleted blob |
| ClientService.UpdateClientProfile | services/client.services.js:37-93 | the same outcomes and stored values, and a stored picture that named a live blob still does whatever the outcome |
| ProfileHelper.FormatProfileResponse | utils/profile.helper.utils.js:6-23 | the profile copy loses the five bookkeeping keys and the caller's keys; merge precedence is extra over profile over user |
| ProfileHelper.GetOrCreateProfile | utils/profile.helper.utils.js:26-30 | the stored profile, or exactly one new profile for the user |
| ProfileHelper.RefIds | utils/profile.helper.utils.js:46 | a file reference names at most one blob, its publicId |
| ProfileHelper.HandleFileUpload | utils/profile.helper.utils.js:35-51 | no file: nothing happens; a rejected upload leaves every blob, the old one included; an accepted one adds a fresh blob, then deletes the old blob if it names one |
| Cloud.BlobStore.Upload | services/cloudinary.uploader.services.js:13-30 | a rejected upload changes nothing; an accepted one adds one fresh blob with a delivery URL |
| Cloud.BlobStore.Delete | services/cloudinary.uploader.services.js:31-34 | the blob is gone, and deleting a missing blob changes nothing |
| Cloud.DeleteEach | services/timeline.services.js:198-204 | the delete loop removes exactly the listed blobs |
| OtpModel.NewOtp | model/otp.model.js:40-67 | a created record expires 10 minutes later, is unused and has no attempts or resends |
| OtpModel.RemainingCooldown | model/otp.model.js:117-125 | 0 exactly when a resend is allowed; otherwise the remaining milliseconds rounded up to seconds, never more than 60 |
| OtpModel.InvalidatedPrevious | model/otp.model.js:135-140 | the triple's unused records become used now; all others are untouched |
| OtpModel.InvalidatePreviousLeavesNoneUnused | model/otp.model.js:135-140 | afterwards no record of the triple is unused and no record of another triple changed |
| OtpModel.OtpStore.InvalidatePrevious | model/otp.model.js:135-140 | the stored records become InvalidatedPrevious of the old ones |
| OtpService.NatToString | services/otp.services.js:32 | `toString()` yields a non-empty string of decimal digits |
| OtpService.NatToStringRoundTrip | services/otp.services.js:32 | reading the digits back gives the number, so distinct codes are distinct strings |
| OtpService.CodeHasSixDigits | services/otp.services.js:32 | a code in [100000, 999999) is written with exactly six digits |
| OtpService.RecentOtp | services/otp.services.js:16-21 | the first record of the triple created within the cooldown, if any |
| OtpService.WaitSeconds | services/otp.services.js:24 | the wait is at least one second and at most 60 for a past record |
| OtpService.MarkAllUsed | services/otp.services.js:29 | every record of the triple is marked used, whatever its state; no other record changes |
| OtpService.GenerateOtp | services/otp.services.js:14-58 | a recent code refuses with the wait time and nothing changed; otherwise earlier codes of the triple are marked used, then the new record is appended when it passes its validators, or the call fails with a validation error |
| OtpService.GenerationLeavesOneLiveCode | services/otp.services.js:28-40 | after generation the new code is the triple's only unused one, and another request within the cooldown is refused |
| OtpService.FindLive | services/otp.services.js:64-69 | the first unused, unexpired record of the user for the purpose: it matches, no earlier record does, and none is found exactly when none matches |
| OtpService.WrongGuess | services/otp.services.js:77-85 | a wrong guess adds one attempt and uses the record up when the attempts reach 3 |
| OtpService.VerifyOtp | services/otp.services.js:63-94 | no live record: BadRequest, nothing changes; a wrong code costs an attempt and locks at the cap; a correct one uses the record up and returns it |
| OtpService.UsedRecordIsNeverFoundAgain | services/otp.services.js:64-69 | a used record is never found by a later verification, so a code works once |
| OtpService.ThirdWrongGuessLocks | services/otp.services.js:76-87 | the first two wrong guesses leave a fresh code usable; the third uses it up |
| RefreshTokenModel.IssuedToken | model/refreshtoken.model.js:28-38 | an issued token is valid, unrevoked and expires 48 h later |
| RefreshTokenModel.Revoke | model/refreshtoken.model.js:68-75 | the token is invalid, revoked now with the reason (default "User logout"), never usable again; nothing else changes |
| RefreshTokenModel.RevokedForUser | model/refreshtoken.model.js:82-91 | only a valid token of the user is revoked |
| RefreshTokenModel.RevokeAll | model/refreshtoken.model.js:82-91 | the updateMany applies that rule to every token and keeps the collection's ids |
| RefreshTokenModel.RevokeAllEndsSessions | model/refreshtoken.model.js:82-107 | after a reset the user has no usable token, and every other user's tokens and sessions are unchanged |
| RefreshTokenModel.TokenStore.ActiveSessions | model/refreshtoken.model.js:101-107 | exactly the user's valid, unexpired tokens |
| RefreshTokenModel.TokenStore.ActiveSessionsCount | model/refreshtoken.model.js:101-107 | the number of the user's usable tokens, 0 exactly when there is none |
| RefreshTokenModel.TokenStore.Issue | model/refreshtoken.model.js:4-32 | an empty token string or a user type outside the role enum fails validation, a token string already stored is a duplicate key; otherwise exactly one new token under a fresh id, token strings staying unique |
| RefreshTokenModel.TokenStore.RevokeToken | model/refreshtoken.model.js:68-75 | only the revoked token changes |
| RefreshTokenModel.TokenStore.RevokeAllForUser | model/refreshtoken.model.js:82-91 | the store becomes RevokeAll with the reason defaulting to "Security reset" |
| RefreshTokenModel.TokenStore.CleanupExpired | model/refreshtoken.model.js:94-98 | exactly the tokens expiring strictly before `now` are removed |
| Rbac.RequireRole | middleware/rbac.middleware.js:12-26 | Unauthorized without a caller; proceeds exactly for an allowed role |
| Rbac.SomeHeld | middleware/rbac.middleware.js:41-43 | true exactly when some required permission is held |
| Rbac.EveryHeld | middleware/rbac.middleware.js:66-68 | true exactly when every required permission is held |
| Rbac.RequirePermission | middleware/rbac.middleware.js:32-51 | proceeds exactly when the role holds one of the permissions |
| Rbac.RequireAllPermissions | middleware/rbac.middleware.js:57-76 | proceeds exactly when the role holds all of them |
| Rbac.PermissionGateEdges | middleware/rbac.middleware.js:32-76 | an empty list is refused by requirePermission and passed by requireAllPermissions; an unknown role passes neither on a non-empty list |
| Rbac.AllPermissionsImplySome | middleware/rbac.middleware.js:41-66 | on a non-empty list, passing requireAllPermissions implies passing requirePermission |
| Rbac.AdminHoldsEveryPermission | utils/constants.js:113-123 | the admin passes every gate over permissions of the table |
| Rbac.RequireOwnerOrAdmin | middleware/rbac.middleware.js:82-102 | an admin always proceeds; anyone else proceeds exactly when the owner id is theirs |

## Left out

- I/O is not modelled: temp-file unlinking, Cloudinary folders and URLs, e-mail and SMS delivery of OTPs, and logging.
- The clock is a parameter `now`; the random OTP code is a parameter in [100000, 999999).
- OTP codes are stored and compared in plain text; bcrypt hashing (`model/otp.model.js:83-94`) is not modelled.
- A Cloudinary delete is assumed to succeed. The timeline service catches and logs delete errors (`services/timeline.services.js:199-203`, `278-282`), so there a failing delete would only leave a blob live. `handleFileUpload` awaits the delete unguarded (`utils/profile.helper.utils.js:46-48`), so there a failing delete fails the profile update after the new upload succeeded; that failure path is not modelled.
- Rbac.RequireOwnerOrAdmin: the owner lookup is taken to return an id; a lookup that returns nothing makes `ownerId.toString()` throw a TypeError (`middleware/rbac.middleware.js:96`), which is not modelled.
- LawyerProfileModel.SaveLawyerProfile: the subscription `userType` enum, the `availabilityStatus` enum, the practice locations' own status enum and required `location`, schedule and qualification sub-document fields, the 1950..current-year `passingYear` bound and the completion fields' own min and max are not modelled; the model's profile carries none of those fields or keeps them as plain strings.
- Concurrency is not modelled: each service runs to completion. The compare-and-set updates are single atomic steps.
- Populated references, `lean()` shaping, `createdAt` sort orders and response messages are not modelled. Queries return sets of ids, or sequences in collection order where the order is used.
- `getClientProfileService` (`services/client.services.js:18-28`) is not part of this model.
- `toPublicJSON` and `toObject` are taken as given key-value maps in `FormatProfileResponse`.
- OTP purposes: the services' default purpose `verification` is not in the purpose enum. Its creation fails validation (`GenerateOtp` reports it), and the e-mail subject that depends on it is not modelled.
- The OTP `max` validator on `attempts` is never reached. The verification locks the record on the attempt that reaches 3.
- ProfileHelper.GetOrCreateProfile: specialised to client profiles created without `defaults`.
- CaseService.CreateCase: models the corrected document (see Findings). The parse of `preferredLanguages` from form data (`parseJsonField`) is taken as already done.
- CaseService.InviteLawyers: a database error other than a duplicate key (rethrown in the loop) is not modelled.
- CaseService.ValidLawyers: returns the valid lawyers in request order. The source returns them in collection order, and only the counts depend on the order.
- ProposalService.AcceptCascade: the timeline is written before the case, so that the store invariant (an assigned case has a timeline) holds after every write. The source updates the case first, then creates the timeline.
- ProposalModel.NewProposal: the request body is modelled with the proposal's own input fields only. `createProposalService` (`services/proposal.services.js:49-54`) also spreads the body, so `viewedAt`, `respondedAt` and `responseNote` could come from the request; only `status`, `lawyerId` and `clientId` are overridden. That mass assignment is not modelled.
- ClientService.UpdateClientProfileAsWritten: the user schema's own validators beyond the two names are not modelled.
- The controllers, routers, express-validator rule lists, authentication, audit logging and the auth and lawyer field-copy services are not part of this model.

## Findings

| source | as written | input that shows it | evidently intended | confidence | as-written member | corrected member |
|---|---|---|---|---|---|---|
| services/case.services.js:93-97 | the request body is spread into the new case and only `clientId` and `status` are overridden, so `assignedLawyerId`, `assignedAt`, `proposalCount` and `invitationCount` come from the client | a valid body with `invitationCount: 5` and `assignedLawyerId: 7` (`CaseService.MassAssignmentBody`) yields an assigned case counting five invitations it does not have, with no timeline | a new case is unassigned with both counters at 0, as the schema defaults say | not executed | CaseService.MassAssignmentBreaksStore | CaseService.CreateCase |
| services/client.services.js:61-86 | the picture upload (`utils/profile.helper.utils.js:46-48`) deletes the old picture's blob before the CNIC document upload and both saves; when a later step fails, the stored account still names the deleted blob | an account whose picture is live, a new picture the gateway accepts, and a CNIC document it rejects | the old picture is deleted only after the account naming the new one is saved | not executed | ClientService.UpdateClientProfileAsWritten | ClientService.UpdateClientProfile |
