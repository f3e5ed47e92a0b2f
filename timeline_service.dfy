/**
 * The timeline service: creating a case's timeline, reading it, submitting a phase, adding
 * court-hearing sessions and closing the hearing. Every update of a stored timeline is one
 * atomic compare-and-set; documents are uploaded before it and deleted again when it fails.
 */
module TimelineService {
  import opened Common
  import opened Errors
  import opened Constants
  import opened CaseModel
  import opened CaseTimeline
  import opened Cloud
  import opened Store

  // ---------------------------------------------------------------- request shapes and answers

  /** The fields of a phase submission; `outcome` matters only for the outcome phase. */
  datatype PhaseInput = PhaseInput(
    outcome: Option<string>,
    judgeCourtRemarks: Option<string>,
    lawyerRemarks: Option<string>,
    opponentRemarks: Option<string>)

  /** The fields of a court-hearing session. */
  datatype SubPhaseInput = SubPhaseInput(
    name: Option<string>,
    judgeCourtRemarks: Option<string>,
    lawyerRemarks: Option<string>,
    opponentRemarks: Option<string>)

  datatype TimelineView = TimelineView(caseId: CaseId, title: string, category: string, caseStatus: CaseStatus,
                                       progress: nat, timeline: Timeline)

  datatype PhaseSubmitted = PhaseSubmitted(progress: nat, timeline: Timeline)

  datatype SubPhaseAdded = SubPhaseAdded(progress: nat, subPhase: SubPhase, totalSubPhases: nat)

  const INVALID_PHASE_KEY: string := "invalid phase key"
  const HEARING_NOT_SUBMITTABLE: string := "court hearing is managed through its sub-phases"
  const OUTCOME_REQUIRED: string := "a valid outcome is required"
  const PHASE_NOT_ONGOING: string := "phase is not ongoing"
  const NAME_REQUIRED: string := "sub-phase name is required"
  const HEARING_NOT_ONGOING: string := "court hearing is not ongoing"
  const SUBPHASE_REQUIRED: string := "at least one sub-phase is required"

  // ---------------------------------------------------------------- createTimeline

  /**
   * createTimelineService: an existing timeline is returned as it is and nothing is written;
   * otherwise a case that does not exist is NotFound, and an existing one gets the fresh
   * timeline (intake ongoing, everything else pending, no sub-phases).
   */
  method CreateTimeline(db: Database, caseId: CaseId) returns (r: Result<Timeline>)
    requires db.Valid()
    modifies db`timelines
    ensures db.Valid()
    ensures caseId in old(db.timelines) ==> r == Ok(old(db.timelines[caseId])) && db.timelines == old(db.timelines)
    ensures caseId !in old(db.timelines) && caseId !in db.cases ==> r == Err(NotFound) && db.timelines == old(db.timelines)
    ensures caseId !in old(db.timelines) && caseId in db.cases ==>
              r == Ok(NewTimeline(caseId)) && db.timelines == old(db.timelines)[caseId := NewTimeline(caseId)]
    ensures r.Ok? ==> caseId in db.timelines && db.timelines[caseId] == r.value
  {
    if caseId in db.timelines {
      return Ok(db.timelines[caseId]);
    }
    if caseId !in db.cases {
      return Err(NotFound);
    }
    var t := NewTimeline(caseId);
    db.PutTimeline(caseId, t);
    return Ok(t);
  }

  // ---------------------------------------------------------------- getTimeline

  /** Who may read a case's timeline: its client, or its assigned lawyer. */
  predicate MayViewTimeline(c: Case, userId: UserId, role: string) {
    (role == CLIENT && c.clientId == userId) || (role == LAWYER && c.assignedLawyerId == Some(userId))
  }

  /**
   * getTimelineService: NotFound for a missing case, Forbidden for anyone but the case's client
   * or assigned lawyer (any other role included), NotFound when the case has no timeline.
   */
  function GetTimeline(db: Database, caseId: CaseId, userId: UserId, role: string): (r: Result<TimelineView>)
    reads db
    ensures caseId !in db.cases ==> r == Err(NotFound)
    ensures caseId in db.cases && !MayViewTimeline(db.cases[caseId], userId, role) ==> r == Err(Forbidden)
    ensures r.Ok? <==> caseId in db.cases && MayViewTimeline(db.cases[caseId], userId, role) && caseId in db.timelines
    ensures r.Err? ==> r.error == NotFound || r.error == Forbidden
    ensures r.Ok? ==> r.value.timeline == db.timelines[caseId] && r.value.progress == CalculateProgress(db.timelines[caseId])
    ensures r.Ok? ==> r.value.caseId == caseId && r.value.caseStatus == db.cases[caseId].status
  {
    if caseId !in db.cases then Err(NotFound)
    else
      var c := db.cases[caseId];
      if !MayViewTimeline(c, userId, role) then Err(Forbidden)
      else if caseId !in db.timelines then Err(NotFound)
      else
        var t := db.timelines[caseId];
        Ok(TimelineView(caseId, c.title, c.category, c.status, CalculateProgress(t), t))
  }

  /** In a consistent store the assigned lawyer can always read the timeline of the case. */
  lemma {:induction false} AssignedLawyerSeesTimeline(db: Database, caseId: CaseId, lawyerId: UserId)
    requires db.Valid()
    requires caseId in db.cases && db.cases[caseId].assignedLawyerId == Some(lawyerId)
    ensures GetTimeline(db, caseId, lawyerId, LAWYER).Ok?
    ensures WellFormed(GetTimeline(db, caseId, lawyerId, LAWYER).value.timeline)
  {
    assert TimelinesValid(db.cases, db.timelines);
  }

  // ---------------------------------------------------------------- document uploads

  /** The `publicId`s of the uploaded documents, in upload order (`uploadedPublicIds`). */
  function PublicIds(docs: seq<Document>): (ids: seq<BlobId>)
    ensures |ids| == |docs| && forall i :: 0 <= i < |docs| ==> ids[i] == docs[i].publicId
  {
    if docs == [] then [] else PublicIds(docs[..|docs| - 1]) + [docs[|docs| - 1].publicId]
  }

  lemma {:induction false} PublicIdsAreDocumentIds(docs: seq<Document>)
    ensures (set i | 0 <= i < |PublicIds(docs)| :: PublicIds(docs)[i]) == DocumentIds(docs)
  {
    var ids := PublicIds(docs);
    assert forall b :: b in DocumentIds(docs) ==> exists i :: 0 <= i < |ids| && ids[i] == b;
  }

  lemma {:induction false} DocumentIdsAppend(docs: seq<Document>, d: Document)
    ensures DocumentIds(docs + [d]) == DocumentIds(docs) + {d.publicId}
  {
    var ds := docs + [d];
    assert forall i :: 0 <= i < |docs| ==> ds[i] == docs[i];
    assert ds[|docs|] == d;
    forall b | b in DocumentIds(ds)
      ensures b in DocumentIds(docs) + {d.publicId}
    {
      var i :| 0 <= i < |ds| && ds[i].publicId == b;
      if i < |docs| {
        assert docs[i].publicId == b;
      }
    }
  }

  /** A document describes the file it was uploaded from. */
  predicate Describes(d: Document, f: UploadFile) {
    d.originalName == f.originalName && d.fileSize == f.size && d.mimetype == f.mimetype
  }

  /**
   * One upload of the loop: a rejected upload yields nothing and changes nothing; an accepted one
   * yields the document describing `f`, whose id is fresh and now live.
   */
  method UploadOne(store: BlobStore, f: UploadFile, accepted: bool) returns (d: Option<Document>)
    requires store.Valid()
    modifies store
    ensures store.Valid()
    ensures !accepted ==> d.None? && store.live == old(store.live) && store.next == old(store.next)
    ensures accepted ==> && d.Some? && Describes(d.value, f)
                         && d.value.publicId !in old(store.live) && old(store.next) <= d.value.publicId < store.next
                         && store.live == old(store.live) + {d.value.publicId}
  {
    var up := store.Upload(accepted);
    if up.None? {
      return None;
    }
    return Some(Document(up.value.publicId, up.value.secureUrl, f.originalName, f.size, f.mimetype));
  }

  /**
   * The upload loop with its rollback: the files are uploaded one by one; when the gateway
   * rejects one (the attempt numbered `failAt`), every file already uploaded in this call is
   * deleted again and the upload error propagates, so the store is as it was.
   */
  method UploadDocuments(store: BlobStore, files: seq<UploadFile>, failAt: Option<nat>) returns (r: Result<seq<Document>>)
    requires store.Valid()
    modifies store
    ensures store.Valid()
    ensures r.Err? <==> failAt.Some? && failAt.value < |files|
    ensures r.Err? ==> r.error == UploadFailed && store.live == old(store.live)
    ensures r.Ok? ==> |r.value| == |files| && forall i :: 0 <= i < |files| ==> Describes(r.value[i], files[i])
    ensures r.Ok? ==> store.live == old(store.live) + DocumentIds(r.value)
    ensures r.Ok? ==> forall b :: b in DocumentIds(r.value) ==> b !in old(store.live)
    ensures old(store.next) <= store.next
  {
    var docs: seq<Document> := [];
    ghost var added: set<BlobId> := {};
    var i := 0;
    while i < |files|
      invariant 0 <= i <= |files|
      invariant store.Valid()
      invariant |docs| == i && forall j :: 0 <= j < i ==> Describes(docs[j], files[j])
      invariant added == DocumentIds(docs)
      invariant store.live == old(store.live) + added
      invariant forall b :: b in added ==> b !in old(store.live) && b < store.next
      invariant old(store.next) <= store.next
      invariant failAt.Some? ==> i <= failAt.value
    {
      var d := UploadOne(store, files[i], failAt != Some(i));
      if d.None? {
        DropUploads(store, docs, old(store.live));
        return Err(UploadFailed);
      }
      DocumentIdsAppend(docs, d.value);
      docs := docs + [d.value];
      added := added + {d.value.publicId};
      i := i + 1;
    }
    return Ok(docs);
  }

  /** Deleting the documents uploaded in this call brings the live blobs back to what they were. */
  method DropUploads(store: BlobStore, docs: seq<Document>, ghost before: set<BlobId>)
    requires store.live == before + DocumentIds(docs)
    requires forall b :: b in DocumentIds(docs) ==> b !in before
    modifies store`live
    ensures store.live == before
  {
    var ids := PublicIds(docs);
    PublicIdsAreDocumentIds(docs);
    DeleteEach(store, ids);
  }

  /**
   * The rollback after a failed compare-and-set: the delete loop runs once where the failure
   * is detected and once more in the handler that catches the rethrown error. Deleting is
   * idempotent, so the second pass changes nothing and the fresh uploads are gone.
   */
  method RollBack(store: BlobStore, docs: seq<Document>, ghost before: set<BlobId>)
    requires store.live == before + DocumentIds(docs)
    requires forall b :: b in DocumentIds(docs) ==> b !in before
    modifies store`live
    ensures store.live == before
  {
    DropUploads(store, docs, before);
    var ids := PublicIds(docs);
    PublicIdsAreDocumentIds(docs);
    DeleteEach(store, ids);
    assert store.live == before - DocumentIds(docs);
  }

  // ---------------------------------------------------------------- submitPhaseData

  /**
   * The checks submitPhaseDataService makes before anything is uploaded, in its order: the slug
   * must name a phase and not the court hearing, the case must exist, the caller must be its
   * assigned lawyer, and the outcome phase needs a valid outcome. Passing yields the phase.
   */
  function SubmitPrecheck(cases: map<CaseId, Case>, caseId: CaseId, slug: string, outcome: Option<string>, lawyerId: UserId): (r: Result<PhaseKey>)
    ensures PhaseOfSlug(slug).None? ==> r == Err(BadRequest(INVALID_PHASE_KEY))
    ensures PhaseOfSlug(slug) == Some(CourtHearing) ==> r == Err(BadRequest(HEARING_NOT_SUBMITTABLE))
    ensures r.Ok? <==> && PhaseOfSlug(slug).Some? && PhaseOfSlug(slug).value != CourtHearing
                       && caseId in cases && cases[caseId].assignedLawyerId == Some(lawyerId)
                       && (PhaseOfSlug(slug).value == CaseOutcome ==> ParseOutcome(outcome).Some?)
    ensures r.Ok? ==> r.value == PhaseOfSlug(slug).value
    ensures PhaseOfSlug(slug).Some? && PhaseOfSlug(slug).value != CourtHearing && caseId !in cases ==> r == Err(NotFound)
    ensures (PhaseOfSlug(slug).Some? && PhaseOfSlug(slug).value != CourtHearing && caseId in cases
             && cases[caseId].assignedLawyerId != Some(lawyerId)) ==> r == Err(Forbidden)
  {
    match PhaseOfSlug(slug)
    case None => Err(BadRequest(INVALID_PHASE_KEY))
    case Some(k) =>
      if k == CourtHearing then Err(BadRequest(HEARING_NOT_SUBMITTABLE))
      else if caseId !in cases then Err(NotFound)
      else if cases[caseId].assignedLawyerId != Some(lawyerId) then Err(Forbidden)
      else if k == CaseOutcome && ParseOutcome(outcome).None? then Err(BadRequest(OUTCOME_REQUIRED))
      else Ok(k)
  }

  /** The data block stored for a submission: absent remarks become "", the lawyer is the author. */
  function PhaseRecord(k: PhaseKey, input: PhaseInput, docs: seq<Document>, now: nat, lawyerId: UserId): (d: PhaseData)
    requires k == CaseOutcome ==> ParseOutcome(input.outcome).Some?
    ensures d.documents == docs && d.submittedAt == Some(now) && d.submittedBy == Some(lawyerId)
    ensures d.judgeCourtRemarks == Some(OrEmpty(input.judgeCourtRemarks))
    ensures d.lawyerRemarks == Some(OrEmpty(input.lawyerRemarks))
    ensures d.opponentRemarks == Some(OrEmpty(input.opponentRemarks))
    ensures SubmittedDataFor(k, d)
  {
    PhaseData(
      if k == CaseOutcome then ParseOutcome(input.outcome) else None,
      docs,
      Some(OrEmpty(input.judgeCourtRemarks)),
      Some(OrEmpty(input.lawyerRemarks)),
      Some(OrEmpty(input.opponentRemarks)),
      Some(now),
      Some(lawyerId))
  }

  /**
   * submitPhaseDataService. The guards fail before any upload. Then the documents are uploaded
   * (the gateway rejecting attempt `failAt`, if any), and the compare-and-set completes the phase
   * only if it is still ongoing. On success the phase holds the submitted data, its successor is
   * opened if it was pending, progress rises by 20, and submitting the outcome completes the case.
   * Every failure leaves the timelines, the cases and the live blobs as they were.
   */
  method SubmitPhaseData(db: Database, store: BlobStore, caseId: CaseId, slug: string, input: PhaseInput,
                         files: seq<UploadFile>, failAt: Option<nat>, lawyerId: UserId, now: nat)
    returns (r: Result<PhaseSubmitted>)
    requires db.Valid() && store.Valid()
    modifies db`timelines, db`cases, store
    ensures db.Valid() && store.Valid()
    ensures r.Err? ==> db.timelines == old(db.timelines) && db.cases == old(db.cases) && store.live == old(store.live)
    ensures old(SubmitPrecheck(db.cases, caseId, slug, input.outcome, lawyerId)).Err? ==>
              r == Err(old(SubmitPrecheck(db.cases, caseId, slug, input.outcome, lawyerId)).error)
              && store.next == old(store.next)
    ensures old(SubmitPrecheck(db.cases, caseId, slug, input.outcome, lawyerId)).Ok? && failAt.Some? && failAt.value < |files| ==>
              r == Err(UploadFailed)
    ensures (old(SubmitPrecheck(db.cases, caseId, slug, input.outcome, lawyerId)).Ok? && !(failAt.Some? && failAt.value < |files|)
             && !(caseId in old(db.timelines) && Status(old(db.timelines[caseId]), PhaseOfSlug(slug).value) == Ongoing)) ==>
              r == Err(BadRequest(PHASE_NOT_ONGOING))
    ensures r.Ok? <==> && old(SubmitPrecheck(db.cases, caseId, slug, input.outcome, lawyerId)).Ok?
                       && !(failAt.Some? && failAt.value < |files|)
                       && caseId in old(db.timelines) && Status(old(db.timelines[caseId]), PhaseOfSlug(slug).value) == Ongoing
    ensures r.Ok? ==>
              var k := PhaseOfSlug(slug).value;
              var before := old(db.timelines[caseId]);
              var docs := DataOf(r.value.timeline, k).documents;
              && old(SubmitPrecheck(db.cases, caseId, slug, input.outcome, lawyerId)) == Ok(k)
              && caseId in old(db.timelines) && Status(before, k) == Ongoing
              && r.value.timeline == CompletePhase(before, k, PhaseRecord(k, input, docs, now, lawyerId))
              && db.timelines == old(db.timelines)[caseId := r.value.timeline]
              && r.value.progress == CalculateProgress(before) + 20
              && |docs| == |files| && (forall i :: 0 <= i < |files| ==> Describes(docs[i], files[i]))
              && store.live == old(store.live) + DocumentIds(docs)
              && (forall b :: b in DocumentIds(docs) ==> b !in old(store.live))
              && db.cases == if k == CaseOutcome then old(db.cases)[caseId := old(db.cases[caseId]).(status := CaseCompleted)]
                             else old(db.cases)
  {
    var check := SubmitPrecheck(db.cases, caseId, slug, input.outcome, lawyerId);
    if check.Err? {
      return Err(check.error);
    }
    r := CommitPhase(db, store, caseId, check.value, input, files, failAt, lawyerId, now);
  }

  /**
   * The part of submitPhaseDataService after its guards: upload the documents, then the
   * compare-and-set on the phase being ongoing, then the case completion for the outcome phase.
   */
  method CommitPhase(db: Database, store: BlobStore, caseId: CaseId, k: PhaseKey, input: PhaseInput,
                     files: seq<UploadFile>, failAt: Option<nat>, lawyerId: UserId, now: nat)
    returns (r: Result<PhaseSubmitted>)
    requires db.Valid() && store.Valid()
    requires k != CourtHearing && caseId in db.cases && (k == CaseOutcome ==> ParseOutcome(input.outcome).Some?)
    modifies db`timelines, db`cases, store
    ensures db.Valid() && store.Valid()
    ensures r.Err? ==> db.timelines == old(db.timelines) && db.cases == old(db.cases) && store.live == old(store.live)
    ensures failAt.Some? && failAt.value < |files| ==> r == Err(UploadFailed)
    ensures (!(failAt.Some? && failAt.value < |files|)
             && !(caseId in old(db.timelines) && Status(old(db.timelines[caseId]), k) == Ongoing)) ==>
              r == Err(BadRequest(PHASE_NOT_ONGOING))
    ensures r.Ok? <==> && !(failAt.Some? && failAt.value < |files|)
                       && caseId in old(db.timelines) && Status(old(db.timelines[caseId]), k) == Ongoing
    ensures r.Ok? ==>
              var before := old(db.timelines[caseId]);
              var docs := DataOf(r.value.timeline, k).documents;
              && caseId in old(db.timelines) && Status(before, k) == Ongoing
              && r.value.timeline == CompletePhase(before, k, PhaseRecord(k, input, docs, now, lawyerId))
              && db.timelines == old(db.timelines)[caseId := r.value.timeline]
              && r.value.progress == CalculateProgress(before) + 20
              && |docs| == |files| && (forall i :: 0 <= i < |files| ==> Describes(docs[i], files[i]))
              && store.live == old(store.live) + DocumentIds(docs)
              && (forall b :: b in DocumentIds(docs) ==> b !in old(store.live))
              && db.cases == if k == CaseOutcome then old(db.cases)[caseId := old(db.cases[caseId]).(status := CaseCompleted)]
                             else old(db.cases)
  {
    var uploaded := UploadDocuments(store, files, failAt);
    if uploaded.Err? {
      return Err(uploaded.error);
    }
    var docs := uploaded.value;
    var data := PhaseRecord(k, input, docs, now, lawyerId);

    // the compare-and-set: match the case's timeline with phase k ongoing, then update it
    if !(caseId in db.timelines && Status(db.timelines[caseId], k) == Ongoing) {
      RollBack(store, docs, old(store.live));
      return Err(BadRequest(PHASE_NOT_ONGOING));
    }
    var after := StorePhase(db, caseId, k, data);
    return Ok(PhaseSubmitted(CalculateProgress(after), after));
  }

  /**
   * The update of the compare-and-set once it matched: phase `k` completed with `data` and, for
   * the outcome phase, the case marked completed.
   */
  method StorePhase(db: Database, caseId: CaseId, k: PhaseKey, data: PhaseData) returns (after: Timeline)
    requires db.Valid() && caseId in db.cases && caseId in db.timelines
    requires k != CourtHearing && Status(db.timelines[caseId], k) == Ongoing && SubmittedDataFor(k, data)
    modifies db`timelines, db`cases
    ensures db.Valid()
    ensures after == CompletePhase(old(db.timelines[caseId]), k, data) && DataOf(after, k) == data
    ensures CalculateProgress(after) == CalculateProgress(old(db.timelines[caseId])) + 20
    ensures db.timelines == old(db.timelines)[caseId := after]
    ensures db.cases == if k == CaseOutcome then old(db.cases)[caseId := old(db.cases[caseId]).(status := CaseCompleted)]
                        else old(db.cases)
  {
    var before := db.timelines[caseId];
    after := CompletePhase(before, k, data);
    CompletePhaseKeepsShape(before, k, data);
    db.PutTimeline(caseId, after);
    if k == CaseOutcome {
      db.UpdateCase(caseId, db.cases[caseId].(status := CaseCompleted));
    }
  }

  // ---------------------------------------------------------------- addCourtHearingSubPhase

  /** The session stored by addCourtHearingSubPhaseService: trimmed name and remarks, the lawyer as author. */
  function SessionRecord(input: SubPhaseInput, docs: seq<Document>, now: nat, lawyerId: UserId): (s: SubPhase)
    requires Filled(input.name)
    ensures s.name == Trim(input.name.value) && s.name != ""
    ensures s.documents == docs && s.submittedAt == now && s.submittedBy == lawyerId
    ensures s.judgeCourtRemarks == Trim(OrEmpty(input.judgeCourtRemarks))
    ensures s.lawyerRemarks == Trim(OrEmpty(input.lawyerRemarks))
    ensures s.opponentRemarks == Trim(OrEmpty(input.opponentRemarks))
  {
    SubPhase(Trim(input.name.value), docs,
      Trim(OrEmpty(input.judgeCourtRemarks)), Trim(OrEmpty(input.lawyerRemarks)), Trim(OrEmpty(input.opponentRemarks)),
      now, lawyerId)
  }

  /**
   * addCourtHearingSubPhaseService: NotFound for a missing case, Forbidden for anyone but the
   * assigned lawyer, BadRequest for a blank name, all before any upload; after the uploads the
   * conditional push appends exactly one session only while the hearing is ongoing. Statuses and
   * progress never change; a failure leaves the timelines and the live blobs as they were.
   */
  method AddCourtHearingSubPhase(db: Database, store: BlobStore, caseId: CaseId, input: SubPhaseInput,
                                 files: seq<UploadFile>, failAt: Option<nat>, lawyerId: UserId, now: nat)
    returns (r: Result<SubPhaseAdded>)
    requires db.Valid() && store.Valid()
    modifies db`timelines, store
    ensures db.Valid() && store.Valid()
    ensures r.Err? ==> db.timelines == old(db.timelines) && store.live == old(store.live)
    ensures caseId !in db.cases ==> r == Err(NotFound) && store.next == old(store.next)
    ensures caseId in db.cases && db.cases[caseId].assignedLawyerId != Some(lawyerId) ==>
              r == Err(Forbidden) && store.next == old(store.next)
    ensures caseId in db.cases && db.cases[caseId].assignedLawyerId == Some(lawyerId) && !Filled(input.name) ==>
              r == Err(BadRequest(NAME_REQUIRED)) && store.next == old(store.next)
    ensures (&& caseId in db.cases && db.cases[caseId].assignedLawyerId == Some(lawyerId) && Filled(input.name)
             && failAt.Some? && failAt.value < |files|) ==> r == Err(UploadFailed)
    ensures (&& caseId in db.cases && db.cases[caseId].assignedLawyerId == Some(lawyerId) && Filled(input.name)
             && !(failAt.Some? && failAt.value < |files|)
             && !(caseId in old(db.timelines) && Status(old(db.timelines[caseId]), CourtHearing) == Ongoing))
            ==> r == Err(BadRequest(HEARING_NOT_ONGOING))
    ensures r.Ok? <==> && caseId in db.cases && db.cases[caseId].assignedLawyerId == Some(lawyerId) && Filled(input.name)
                       && !(failAt.Some? && failAt.value < |files|)
                       && caseId in old(db.timelines) && Status(old(db.timelines[caseId]), CourtHearing) == Ongoing
    ensures r.Ok? ==>
              var before := old(db.timelines[caseId]);
              && caseId in old(db.timelines) && Status(before, CourtHearing) == Ongoing
              && db.cases[caseId].assignedLawyerId == Some(lawyerId) && Filled(input.name)
              && r.value.subPhase == SessionRecord(input, r.value.subPhase.documents, now, lawyerId)
              && db.timelines == old(db.timelines)[caseId := AppendSubPhase(before, r.value.subPhase)]
              && r.value.totalSubPhases == |before.hearing.subPhases| + 1
              && r.value.progress == CalculateProgress(before)
              && store.live == old(store.live) + DocumentIds(r.value.subPhase.documents)
              && |r.value.subPhase.documents| == |files|
  {
    if caseId !in db.cases {
      return Err(NotFound);
    }
    if db.cases[caseId].assignedLawyerId != Some(lawyerId) {
      return Err(Forbidden);
    }
    if !Filled(input.name) {
      return Err(BadRequest(NAME_REQUIRED));
    }

    var uploaded := UploadDocuments(store, files, failAt);
    if uploaded.Err? {
      return Err(uploaded.error);
    }
    var docs := uploaded.value;
    var session := SessionRecord(input, docs, now, lawyerId);

    if !(caseId in db.timelines && Status(db.timelines[caseId], CourtHearing) == Ongoing) {
      RollBack(store, docs, old(store.live));
      return Err(BadRequest(HEARING_NOT_ONGOING));
    }
    var before := db.timelines[caseId];
    var after := AppendSubPhase(before, session);
    AppendSubPhaseKeepsShape(before, session);
    db.PutTimeline(caseId, after);
    return Ok(SubPhaseAdded(CalculateProgress(after), session, |after.hearing.subPhases|));
  }

  // ---------------------------------------------------------------- completeCourtHearing

  /**
   * completeCourtHearingService: NotFound for a missing case, Forbidden for anyone but the
   * assigned lawyer, NotFound for a missing timeline, BadRequest without sub-phases, and the
   * compare-and-set closes the hearing only while it is ongoing; the outcome phase opens if it
   * was pending. Success adds 20 to the progress.
   */
  method CompleteCourtHearing(db: Database, caseId: CaseId, lawyerId: UserId) returns (r: Result<PhaseSubmitted>)
    requires db.Valid()
    modifies db`timelines
    ensures db.Valid()
    ensures r.Err? ==> db.timelines == old(db.timelines)
    ensures caseId !in db.cases ==> r == Err(NotFound)
    ensures caseId in db.cases && db.cases[caseId].assignedLawyerId != Some(lawyerId) ==> r == Err(Forbidden)
    ensures caseId in db.cases && db.cases[caseId].assignedLawyerId == Some(lawyerId) && caseId !in db.timelines ==> r == Err(NotFound)
    ensures (caseId in db.cases && db.cases[caseId].assignedLawyerId == Some(lawyerId) && caseId in old(db.timelines)
             && old(db.timelines[caseId]).hearing.subPhases == []) ==> r == Err(BadRequest(SUBPHASE_REQUIRED))
    ensures (caseId in db.cases && db.cases[caseId].assignedLawyerId == Some(lawyerId) && caseId in old(db.timelines)
             && old(db.timelines[caseId]).hearing.subPhases != [] && Status(old(db.timelines[caseId]), CourtHearing) != Ongoing)
            ==> r == Err(BadRequest(HEARING_NOT_ONGOING))
    ensures r.Ok? <==>
              && caseId in db.cases && db.cases[caseId].assignedLawyerId == Some(lawyerId) && caseId in old(db.timelines)
              && old(db.timelines[caseId]).hearing.subPhases != [] && Status(old(db.timelines[caseId]), CourtHearing) == Ongoing
    ensures r.Ok? ==>
              && r.value.timeline == CompleteHearing(old(db.timelines[caseId]))
              && db.timelines == old(db.timelines)[caseId := r.value.timeline]
              && Status(r.value.timeline, CaseOutcome) == Ongoing
              && r.value.progress == CalculateProgress(old(db.timelines[caseId])) + 20
  {
    if caseId !in db.cases {
      return Err(NotFound);
    }
    if db.cases[caseId].assignedLawyerId != Some(lawyerId) {
      return Err(Forbidden);
    }
    if caseId !in db.timelines {
      return Err(NotFound);
    }
    if db.timelines[caseId].hearing.subPhases == [] {
      return Err(BadRequest(SUBPHASE_REQUIRED));
    }
    var before := db.timelines[caseId];
    if !(Status(before, CourtHearing) == Ongoing && before.hearing.subPhases != []) {
      return Err(BadRequest(HEARING_NOT_ONGOING));
    }
    var after := CompleteHearing(before);
    CompleteHearingKeepsShape(before);
    db.PutTimeline(caseId, after);
    return Ok(PhaseSubmitted(CalculateProgress(after), after));
  }
}
