/**
 * The five-phase timeline of an engaged case, as one document per case: a fixed chain
 * intake -> filed -> trial preparation -> court hearing -> outcome, each phase pending,
 * ongoing or completed, with the submitted data or the court-hearing sub-phases.
 */
module CaseTimeline {
  import opened Common
  import opened Constants

  /** An uploaded file as the timeline records it; `publicId` names the blob in the storage gateway. */
  datatype Document = Document(publicId: BlobId, secureUrl: string, originalName: string, fileSize: nat, mimetype: string)

  /** The data block of phases 1, 2, 3 and 5; `outcome` exists only in phase 5's block. */
  datatype PhaseData = PhaseData(
    outcome: Option<OutcomeType>,
    documents: seq<Document>,
    judgeCourtRemarks: Option<string>,
    lawyerRemarks: Option<string>,
    opponentRemarks: Option<string>,
    submittedAt: Option<nat>,
    submittedBy: Option<UserId>)

  /** One court-hearing session; name, time and author are required by the sub-phase schema. */
  datatype SubPhase = SubPhase(
    name: string,
    documents: seq<Document>,
    judgeCourtRemarks: string,
    lawyerRemarks: string,
    opponentRemarks: string,
    submittedAt: nat,
    submittedBy: UserId)

  datatype DataPhase = DataPhase(status: PhaseStatus, data: PhaseData)
  datatype HearingPhase = HearingPhase(status: PhaseStatus, subPhases: seq<SubPhase>)

  datatype Timeline = Timeline(
    caseId: CaseId,
    intake: DataPhase,
    filed: DataPhase,
    trial: DataPhase,
    hearing: HearingPhase,
    outcome: DataPhase)

  /** The `data: {}` block a new timeline starts with: no documents, nothing submitted. */
  const EmptyData: PhaseData := PhaseData(None, [], None, None, None, None, None)

  // ---------------------------------------------------------------- phase access

  function Status(t: Timeline, k: PhaseKey): PhaseStatus {
    match k
    case CaseIntake => t.intake.status
    case CaseFiled => t.filed.status
    case TrialPreparation => t.trial.status
    case CourtHearing => t.hearing.status
    case CaseOutcome => t.outcome.status
  }

  /** `$set phases.<k>.status`: only that phase's status changes. */
  function WithStatus(t: Timeline, k: PhaseKey, s: PhaseStatus): (r: Timeline)
    ensures Status(r, k) == s
    ensures forall j :: j != k ==> Status(r, j) == Status(t, j)
    ensures r.caseId == t.caseId && r.hearing.subPhases == t.hearing.subPhases
    ensures forall j :: j != CourtHearing ==> DataOf(r, j) == DataOf(t, j)
  {
    match k
    case CaseIntake => t.(intake := t.intake.(status := s))
    case CaseFiled => t.(filed := t.filed.(status := s))
    case TrialPreparation => t.(trial := t.trial.(status := s))
    case CourtHearing => t.(hearing := t.hearing.(status := s))
    case CaseOutcome => t.(outcome := t.outcome.(status := s))
  }

  /** The data block of a phase that has one (every phase but the court hearing). */
  function DataOf(t: Timeline, k: PhaseKey): PhaseData
    requires k != CourtHearing
  {
    match k
    case CaseIntake => t.intake.data
    case CaseFiled => t.filed.data
    case TrialPreparation => t.trial.data
    case CaseOutcome => t.outcome.data
  }

  /** `$set phases.<k>.data`: only that phase's data changes. */
  function WithData(t: Timeline, k: PhaseKey, d: PhaseData): (r: Timeline)
    requires k != CourtHearing
    ensures DataOf(r, k) == d
    ensures forall j :: j != k && j != CourtHearing ==> DataOf(r, j) == DataOf(t, j)
    ensures forall j :: Status(r, j) == Status(t, j)
    ensures r.caseId == t.caseId && r.hearing == t.hearing
  {
    match k
    case CaseIntake => t.(intake := t.intake.(data := d))
    case CaseFiled => t.(filed := t.filed.(data := d))
    case TrialPreparation => t.(trial := t.trial.(data := d))
    case CaseOutcome => t.(outcome := t.outcome.(data := d))
  }

  // ---------------------------------------------------------------- progress

  /** The running count of `calculateProgress`: one per completed phase. */
  function CompletedCount(t: Timeline): (n: nat)
    ensures n <= 5
  {
    (if t.intake.status == Completed then 1 else 0)
    + (if t.filed.status == Completed then 1 else 0)
    + (if t.trial.status == Completed then 1 else 0)
    + (if t.hearing.status == Completed then 1 else 0)
    + (if t.outcome.status == Completed then 1 else 0)
  }

  /**
   * calculateProgress: Math.round(completed / 5 * 100), written as rounding half up of the exact
   * quotient 100·completed / 5. The quotient is whole for every count, so the rounding never
   * changes it: progress is 20 per completed phase, in steps of 20 from 0 to 100.
   */
  function CalculateProgress(t: Timeline): (p: nat)
    ensures p == 20 * CompletedCount(t)
    ensures p <= 100 && p % 20 == 0
  {
    (2 * 100 * CompletedCount(t) + 5) / (2 * 5)
  }

  /** Progress is 100 exactly when every phase is completed, and 0 exactly when none is. */
  lemma {:induction false} ProgressExtremes(t: Timeline)
    ensures CalculateProgress(t) == 100 <==> forall k :: Status(t, k) == Completed
    ensures CalculateProgress(t) == 0 <==> forall k :: Status(t, k) != Completed
  {
    forall k
      ensures Status(t, k) in {t.intake.status, t.filed.status, t.trial.status, t.hearing.status, t.outcome.status}
    {
    }
    assert Status(t, CaseIntake) == t.intake.status;
    assert Status(t, CaseFiled) == t.filed.status;
    assert Status(t, TrialPreparation) == t.trial.status;
    assert Status(t, CourtHearing) == t.hearing.status;
    assert Status(t, CaseOutcome) == t.outcome.status;
  }

  // ---------------------------------------------------------------- the shape invariant

  /** The status a phase has when exactly `d` phases are completed: a completed prefix, one ongoing phase, pending after. */
  function ExpectedStatus(d: nat, k: PhaseKey): PhaseStatus {
    if Rank(k) <= d then Completed
    else if Rank(k) == d + 1 then Ongoing
    else Pending
  }

  /** The phases form a completed prefix, followed by the single ongoing phase, followed by pending phases. */
  ghost predicate Shaped(t: Timeline) {
    forall k :: Status(t, k) == ExpectedStatus(CompletedCount(t), k)
  }

  /** A data phase carries submitted data exactly when it is completed. */
  predicate DataMatchesStatus(p: DataPhase) {
    p.status == Completed <==> p.data.submittedBy.Some?
  }

  /**
   * Everything the operations of the timeline service keep true of a timeline: the shape,
   * submitted data on exactly the completed data phases, an outcome only in the outcome phase
   * (and always once it is completed), sub-phases only once the hearing has started, and at
   * least one before it completed.
   */
  ghost predicate WellFormed(t: Timeline) {
    && Shaped(t)
    && DataMatchesStatus(t.intake) && DataMatchesStatus(t.filed)
    && DataMatchesStatus(t.trial) && DataMatchesStatus(t.outcome)
    && t.intake.data.outcome.None? && t.filed.data.outcome.None? && t.trial.data.outcome.None?
    && (t.outcome.status == Completed ==> t.outcome.data.outcome.Some?)
    && (t.hearing.status == Pending ==> t.hearing.subPhases == [])
    && (t.hearing.status == Completed ==> t.hearing.subPhases != [])
  }

  /** In a well-shaped timeline exactly one phase is ongoing until the last one completes, and it follows the completed ones. */
  lemma {:induction false} OngoingPhaseIsUnique(t: Timeline, j: PhaseKey, k: PhaseKey)
    requires Shaped(t)
    ensures Status(t, j) == Ongoing && Status(t, k) == Ongoing ==> j == k
    ensures Status(t, k) == Ongoing <==> Rank(k) == CompletedCount(t) + 1
    ensures CompletedCount(t) < 5 ==> Status(t, PhaseAt(CompletedCount(t) + 1)) == Ongoing
    ensures Status(t, k) == Completed <==> Rank(k) <= CompletedCount(t)
  {
    assert Status(t, j) == ExpectedStatus(CompletedCount(t), j);
    assert Status(t, k) == ExpectedStatus(CompletedCount(t), k);
    if CompletedCount(t) < 5 {
      var n := PhaseAt(CompletedCount(t) + 1);
      assert Status(t, n) == ExpectedStatus(CompletedCount(t), n);
    }
  }

  /** The timeline createTimeline stores: intake ongoing, everything else pending, no data. */
  function NewTimeline(caseId: CaseId): (t: Timeline)
    ensures t.caseId == caseId
    ensures WellFormed(t) && CompletedCount(t) == 0 && CalculateProgress(t) == 0
    ensures Status(t, CaseIntake) == Ongoing
  {
    Timeline(
      caseId,
      DataPhase(Ongoing, EmptyData),
      DataPhase(Pending, EmptyData),
      DataPhase(Pending, EmptyData),
      HearingPhase(Pending, []),
      DataPhase(Pending, EmptyData))
  }

  // ---------------------------------------------------------------- the three updates

  /**
   * The aggregation-pipeline update of a phase submission: store the data, mark phase `k`
   * completed and move the next phase from pending to ongoing (leaving it alone otherwise).
   */
  function CompletePhase(t: Timeline, k: PhaseKey, d: PhaseData): (r: Timeline)
    requires k != CourtHearing
    ensures Status(r, k) == Completed && DataOf(r, k) == d
    ensures NextPhase(k).Some? ==>
              Status(r, NextPhase(k).value) == if Status(t, NextPhase(k).value) == Pending then Ongoing else Status(t, NextPhase(k).value)
    ensures forall j :: j != k && NextPhase(k) != Some(j) ==> Status(r, j) == Status(t, j)
    ensures forall j :: j != k && j != CourtHearing ==> DataOf(r, j) == DataOf(t, j)
    ensures r.caseId == t.caseId && r.hearing.subPhases == t.hearing.subPhases
  {
    var done := WithStatus(WithData(t, k, d), k, Completed);
    match NextPhase(k)
    case None => done
    case Some(n) => if Status(done, n) == Pending then WithStatus(done, n, Ongoing) else done
  }

  /** The `$push` of a court-hearing sub-phase. */
  function AppendSubPhase(t: Timeline, s: SubPhase): (r: Timeline)
    ensures r.hearing.subPhases == t.hearing.subPhases + [s]
    ensures |r.hearing.subPhases| == |t.hearing.subPhases| + 1
    ensures forall k :: Status(r, k) == Status(t, k)
  {
    t.(hearing := t.hearing.(subPhases := t.hearing.subPhases + [s]))
  }

  /** The aggregation-pipeline update that closes the court hearing and opens the outcome phase if it is pending. */
  function CompleteHearing(t: Timeline): (r: Timeline)
    ensures Status(r, CourtHearing) == Completed
    ensures Status(r, CaseOutcome) == if Status(t, CaseOutcome) == Pending then Ongoing else Status(t, CaseOutcome)
    ensures forall j :: j != CourtHearing && j != CaseOutcome ==> Status(r, j) == Status(t, j)
    ensures forall j :: j != CourtHearing ==> DataOf(r, j) == DataOf(t, j)
    ensures r.caseId == t.caseId && r.hearing.subPhases == t.hearing.subPhases
  {
    var done := WithStatus(t, CourtHearing, Completed);
    if Status(done, CaseOutcome) == Pending then WithStatus(done, CaseOutcome, Ongoing) else done
  }

  /** Data a submission can store: it is marked submitted, and only the outcome phase carries an outcome. */
  predicate SubmittedDataFor(k: PhaseKey, d: PhaseData) {
    d.submittedBy.Some? && (k == CaseOutcome <==> d.outcome.Some?)
  }

  /**
   * Completing the ongoing phase keeps the timeline well formed, adds one completed phase
   * (twenty points of progress), stores exactly the submitted data and touches no other phase's data.
   */
  lemma {:induction false} CompletePhaseKeepsShape(t: Timeline, k: PhaseKey, d: PhaseData)
    requires WellFormed(t) && k != CourtHearing && Status(t, k) == Ongoing
    requires SubmittedDataFor(k, d)
    ensures WellFormed(CompletePhase(t, k, d))
    ensures CompletedCount(CompletePhase(t, k, d)) == CompletedCount(t) + 1
    ensures CalculateProgress(CompletePhase(t, k, d)) == CalculateProgress(t) + 20
    ensures Status(CompletePhase(t, k, d), k) == Completed && DataOf(CompletePhase(t, k, d), k) == d
    ensures forall j :: j != k && j != CourtHearing ==> DataOf(CompletePhase(t, k, d), j) == DataOf(t, j)
    ensures CompletePhase(t, k, d).caseId == t.caseId
    ensures CompletePhase(t, k, d).hearing.subPhases == t.hearing.subPhases
  {
    var c := CompletedCount(t);
    OngoingPhaseIsUnique(t, k, k);
    assert Rank(k) == c + 1;
    var r := CompletePhase(t, k, d);
    forall j
      ensures Status(r, j) == ExpectedStatus(c + 1, j)
    {
      assert Status(t, j) == ExpectedStatus(c, j);
    }
    assert CompletedCount(r) == c + 1 by {
      assert forall j :: Status(r, j) == ExpectedStatus(c + 1, j);
      CountOfShape(r, c + 1);
    }
  }

  /** A timeline whose statuses follow the shape for `d` has exactly `d` completed phases. */
  lemma {:induction false} CountOfShape(t: Timeline, d: nat)
    requires d <= 5
    requires forall j :: Status(t, j) == ExpectedStatus(d, j)
    ensures CompletedCount(t) == d
  {
    assert Status(t, CaseIntake) == ExpectedStatus(d, CaseIntake);
    assert Status(t, CaseFiled) == ExpectedStatus(d, CaseFiled);
    assert Status(t, TrialPreparation) == ExpectedStatus(d, TrialPreparation);
    assert Status(t, CourtHearing) == ExpectedStatus(d, CourtHearing);
    assert Status(t, CaseOutcome) == ExpectedStatus(d, CaseOutcome);
  }

  /** Adding a sub-phase to the ongoing hearing keeps the timeline well formed and leaves progress unchanged. */
  lemma {:induction false} AppendSubPhaseKeepsShape(t: Timeline, s: SubPhase)
    requires WellFormed(t) && Status(t, CourtHearing) == Ongoing
    ensures WellFormed(AppendSubPhase(t, s))
    ensures CalculateProgress(AppendSubPhase(t, s)) == CalculateProgress(t)
  {
    var r := AppendSubPhase(t, s);
    assert CompletedCount(r) == CompletedCount(t);
  }

  /**
   * Closing the ongoing hearing once it has a sub-phase keeps the timeline well formed,
   * adds twenty points of progress and opens the outcome phase.
   */
  lemma {:induction false} CompleteHearingKeepsShape(t: Timeline)
    requires WellFormed(t) && Status(t, CourtHearing) == Ongoing && t.hearing.subPhases != []
    ensures WellFormed(CompleteHearing(t))
    ensures CalculateProgress(CompleteHearing(t)) == CalculateProgress(t) + 20
    ensures Status(CompleteHearing(t), CaseOutcome) == Ongoing
    ensures CompleteHearing(t).hearing.subPhases == t.hearing.subPhases
  {
    var c := CompletedCount(t);
    OngoingPhaseIsUnique(t, CourtHearing, CourtHearing);
    var r := CompleteHearing(t);
    forall j
      ensures Status(r, j) == ExpectedStatus(c + 1, j)
    {
      assert Status(t, j) == ExpectedStatus(c, j);
    }
    CountOfShape(r, c + 1);
  }

  /** Once the phase is completed, the compare-and-set of a second submission for it cannot match again. */
  lemma {:induction false} CompletedPhaseStaysClosed(t: Timeline, k: PhaseKey, d: PhaseData, j: PhaseKey)
    requires WellFormed(t) && k != CourtHearing && Status(t, k) == Ongoing
    requires SubmittedDataFor(k, d)
    requires Rank(j) <= Rank(k)
    ensures Status(CompletePhase(t, k, d), j) == Completed
  {
    CompletePhaseKeepsShape(t, k, d);
    OngoingPhaseIsUnique(t, k, k);
    OngoingPhaseIsUnique(CompletePhase(t, k, d), j, j);
  }

  // ---------------------------------------------------------------- documents

  function DocumentIds(docs: seq<Document>): (ids: set<BlobId>)
    ensures forall i :: 0 <= i < |docs| ==> docs[i].publicId in ids
    ensures forall b :: b in ids ==> exists i :: 0 <= i < |docs| && docs[i].publicId == b
  {
    set i | 0 <= i < |docs| :: docs[i].publicId
  }

  function SubPhaseIds(subs: seq<SubPhase>): (ids: set<BlobId>)
    ensures forall i :: 0 <= i < |subs| ==> DocumentIds(subs[i].documents) <= ids
  {
    if subs == [] then {} else SubPhaseIds(subs[..|subs| - 1]) + DocumentIds(subs[|subs| - 1].documents)
  }

  /** Every blob a timeline refers to. */
  function TimelineBlobs(t: Timeline): set<BlobId> {
    DocumentIds(t.intake.data.documents) + DocumentIds(t.filed.data.documents)
    + DocumentIds(t.trial.data.documents) + DocumentIds(t.outcome.data.documents)
    + SubPhaseIds(t.hearing.subPhases)
  }
}
