/**
 * A lawyer's five-step profile and the completion tracking recomputed on every save:
 * which steps validate, the step to continue at, the percentage and the completeness flag.
 */
module LawyerProfileModel {
  import opened Common
  import opened Errors
  import opened Constants

  datatype Qualification = Qualification(degree: Option<string>, university: Option<string>)

  datatype LawyerProfile = LawyerProfile(
    userId: UserId,
    // step 1
    dateOfBirth: Option<nat>,
    city: Option<string>,
    postalAddress: Option<string>,
    // step 2
    educationalQualifications: seq<Qualification>,
    licenseNo: Option<string>,
    yearsOfExperience: Option<int>,
    // step 3
    areasOfPractice: seq<string>,
    courtJurisdiction: seq<string>,
    languagesSpoken: seq<string>,
    servicesOffered: seq<string>,
    // step 4
    practiceLocations: seq<string>,
    professionalBio: Option<string>,
    // step 5
    cnicDocuments: seq<string>,
    // completion tracking
    profileCompletionStep: int,
    profileCompletionPercentage: int,
    isProfileComplete: bool,
    stepsCompleted: seq<bool>)

  /** validateStep(n): the rule of step `n`; any other number validates nothing. */
  function ValidateStep(p: LawyerProfile, n: int): (ok: bool)
    ensures !(1 <= n <= LAWYER_PROFILE_STEPS_TOTAL) ==> !ok
    ensures n == 5 ==> (ok <==> |p.cnicDocuments| >= 2)
  {
    if n == 1 then p.dateOfBirth.Some? && Truthy(p.city)
    else if n == 2 then |p.educationalQualifications| > 0 && Truthy(p.licenseNo)
    else if n == 3 then |p.areasOfPractice| > 0 && |p.courtJurisdiction| > 0
    else if n == 4 then |p.practiceLocations| > 0 && Truthy(p.professionalBio)
    else if n == 5 then |p.cnicDocuments| >= 2
    else false
  }

  /** The highest step in 1..`i` that validates, or 0 when none does. */
  function HighestValidUpTo(p: LawyerProfile, i: nat): (h: nat)
    requires i <= LAWYER_PROFILE_STEPS_TOTAL
    ensures h <= i
    ensures h == 0 || ValidateStep(p, h)
    ensures forall j :: h < j <= i ==> !ValidateStep(p, j)
  {
    if i == 0 then 0
    else if ValidateStep(p, i) then i
    else HighestValidUpTo(p, i - 1)
  }

  function HighestValidStep(p: LawyerProfile): (h: nat)
    ensures h <= LAWYER_PROFILE_STEPS_TOTAL
  {
    HighestValidUpTo(p, LAWYER_PROFILE_STEPS_TOTAL)
  }

  predicate AllStepsValid(p: LawyerProfile) {
    forall i :: 1 <= i <= LAWYER_PROFILE_STEPS_TOTAL ==> ValidateStep(p, i)
  }

  /** The completion fields agree with the step rules, as the pre-save hook leaves them. */
  predicate CompletionConsistent(p: LawyerProfile) {
    && |p.stepsCompleted| == LAWYER_PROFILE_STEPS_TOTAL
    && (forall i :: 1 <= i <= LAWYER_PROFILE_STEPS_TOTAL ==> p.stepsCompleted[i - 1] == ValidateStep(p, i))
    && p.profileCompletionStep == (if HighestValidStep(p) + 1 < LAWYER_PROFILE_STEPS_TOTAL then HighestValidStep(p) + 1 else LAWYER_PROFILE_STEPS_TOTAL)
    && p.profileCompletionPercentage == 20 * HighestValidStep(p)
    && (p.isProfileComplete <==> AllStepsValid(p))
  }

  /**
   * updateCompletion: record each step's verdict, count the valid steps, find the highest valid
   * one scanning down from step 5, and derive the step to continue at, the percentage and the flag.
   * Nothing but the four completion fields changes.
   */
  method UpdateCompletion(p: LawyerProfile) returns (q: LawyerProfile)
    ensures CompletionConsistent(q)
    ensures 1 <= q.profileCompletionStep <= LAWYER_PROFILE_STEPS_TOTAL
    ensures 0 <= q.profileCompletionPercentage <= 100
    ensures q == p.(profileCompletionStep := q.profileCompletionStep,
                    profileCompletionPercentage := q.profileCompletionPercentage,
                    isProfileComplete := q.isProfileComplete,
                    stepsCompleted := q.stepsCompleted)
  {
    var steps: seq<bool> := [];
    var completedSteps := 0;
    for i := 1 to LAWYER_PROFILE_STEPS_TOTAL + 1
      invariant |steps| == i - 1
      invariant forall j :: 1 <= j < i ==> steps[j - 1] == ValidateStep(p, j)
      invariant completedSteps <= i - 1
      invariant completedSteps == i - 1 <==> forall j :: 1 <= j < i ==> ValidateStep(p, j)
    {
      var isComplete := ValidateStep(p, i);
      steps := steps + [isComplete];
      if isComplete {
        completedSteps := completedSteps + 1;
      }
    }

    var highestComplete := 0;
    var i := LAWYER_PROFILE_STEPS_TOTAL;
    while i >= 1
      invariant 0 <= i <= LAWYER_PROFILE_STEPS_TOTAL
      invariant forall j :: i < j <= LAWYER_PROFILE_STEPS_TOTAL ==> !ValidateStep(p, j)
      invariant highestComplete == 0
      invariant forall j :: 1 <= j <= LAWYER_PROFILE_STEPS_TOTAL ==> steps[j - 1] == ValidateStep(p, j)
    {
      if steps[i - 1] {
        highestComplete := i;
        break;
      }
      i := i - 1;
    }
    HighestValidStepIs(p, highestComplete);

    var step := if highestComplete + 1 < LAWYER_PROFILE_STEPS_TOTAL then highestComplete + 1 else LAWYER_PROFILE_STEPS_TOTAL;
    StepPercentageIsTwentyPerStep(highestComplete);
    var percentage := if highestComplete in LAWYER_STEP_PERCENTAGE then LAWYER_STEP_PERCENTAGE[highestComplete] else 0;
    q := p.(profileCompletionStep := step,
            profileCompletionPercentage := percentage,
            isProfileComplete := completedSteps == LAWYER_PROFILE_STEPS_TOTAL,
            stepsCompleted := steps);
    StepsIgnoreCompletionFields(p, q);
  }

  /** The highest valid step is the one valid step with no valid step above it (or 0 when none is valid). */
  lemma {:induction false} HighestValidStepIs(p: LawyerProfile, h: nat)
    requires h <= LAWYER_PROFILE_STEPS_TOTAL
    requires h == 0 || ValidateStep(p, h)
    requires forall j :: h < j <= LAWYER_PROFILE_STEPS_TOTAL ==> !ValidateStep(p, j)
    ensures HighestValidStep(p) == h
  {
  }

  /** The step rules read only the entered fields, never the completion fields they determine. */
  lemma {:induction false} StepsIgnoreCompletionFields(p: LawyerProfile, q: LawyerProfile)
    requires q == p.(profileCompletionStep := q.profileCompletionStep,
                     profileCompletionPercentage := q.profileCompletionPercentage,
                     isProfileComplete := q.isProfileComplete,
                     stepsCompleted := q.stepsCompleted)
    ensures forall i :: ValidateStep(q, i) == ValidateStep(p, i)
    ensures HighestValidStep(q) == HighestValidStep(p)
    ensures AllStepsValid(q) == AllStepsValid(p)
  {
    assert forall i :: ValidateStep(q, i) == ValidateStep(p, i);
    HighestValidStepIs(q, HighestValidStep(p));
  }

  /** A complete profile is at 100% and at the last step. */
  lemma {:induction false} CompleteMeansFull(p: LawyerProfile)
    requires CompletionConsistent(p) && p.isProfileComplete
    ensures p.profileCompletionPercentage == 100 && p.profileCompletionStep == LAWYER_PROFILE_STEPS_TOTAL
  {
    assert ValidateStep(p, 5);
  }

  /**
   * The percentage follows the highest valid step, not the number of valid steps: a profile whose
   * only valid step is the fifth reports 100% while it is not complete.
   */
  lemma {:induction false} PercentageFollowsHighestStep(p: LawyerProfile)
    requires CompletionConsistent(p)
    requires |p.cnicDocuments| >= 2 && p.dateOfBirth.None?
    ensures p.profileCompletionPercentage == 100
    ensures !p.isProfileComplete
  {
    assert ValidateStep(p, 5);
    assert !ValidateStep(p, 1);
  }

  /** The kinds of CNIC document a lawyer may store. */
  const CNIC_DOCUMENT_KINDS: set<string> := {"front", "back", "other"}

  /** The bounds the lawyer-profile schema checks on save. */
  predicate ValidLawyerFields(p: LawyerProfile) {
    && |p.servicesOffered| <= 7
    && (forall i :: 0 <= i < |p.languagesSpoken| ==> p.languagesSpoken[i] in LANGUAGES)
    && (forall i :: 0 <= i < |p.cnicDocuments| ==> p.cnicDocuments[i] in CNIC_DOCUMENT_KINDS)
    && (p.yearsOfExperience.None? || 0 <= p.yearsOfExperience.value <= 60)
    && (p.postalAddress.None? || |p.postalAddress.value| <= 500)
    && (p.professionalBio.None? || |p.professionalBio.value| <= 500)
  }

  /** What every stored lawyer profile satisfies. */
  predicate LawyerProfileSchema(p: LawyerProfile) {
    ValidLawyerFields(p) && CompletionConsistent(p)
  }

  /**
   * `profile.save()`: the schema bounds are checked and the pre-save hook recomputes the
   * completion fields, so whatever was stored in them before is overwritten.
   */
  method SaveLawyerProfile(p: LawyerProfile) returns (r: Result<LawyerProfile>)
    ensures r.Ok? <==> ValidLawyerFields(p)
    ensures r.Err? ==> r.error == Validation
    ensures r.Ok? ==> LawyerProfileSchema(r.value)
    ensures r.Ok? ==> r.value.(profileCompletionStep := p.profileCompletionStep,
                               profileCompletionPercentage := p.profileCompletionPercentage,
                               isProfileComplete := p.isProfileComplete,
                               stepsCompleted := p.stepsCompleted) == p
    ensures r.Ok? ==> && |r.value.stepsCompleted| == LAWYER_PROFILE_STEPS_TOTAL
                      && (forall i :: 1 <= i <= LAWYER_PROFILE_STEPS_TOTAL ==> r.value.stepsCompleted[i - 1] == ValidateStep(p, i))
                      && r.value.profileCompletionPercentage == 20 * HighestValidStep(p)
                      && (r.value.isProfileComplete <==> AllStepsValid(p))
  {
    if !ValidLawyerFields(p) {
      return Err(Validation);
    }
    var q := UpdateCompletion(p);
    StepsIgnoreCompletionFields(p, q);
    return Ok(q);
  }
}
