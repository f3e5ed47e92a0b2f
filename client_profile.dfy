/**
 * A client's profile: the nine tracked fields, the completion report computed from them,
 * the schema checked on save and the pre-save completeness flag.
 */
module ClientProfileModel {
  import opened Common
  import opened Errors
  import opened UserModel
  import opened Constants

  datatype ClientProfile = ClientProfile(
    userId: UserId,
    fatherName: Option<string>,
    fatherNameUrdu: Option<string>,
    dateOfBirth: Option<nat>,
    gender: Option<string>,
    whatsappNumber: Option<string>,
    preferredLanguage: string,
    cnic: Option<string>,
    cnicDocument: Option<FileRef>,
    city: Option<string>,
    province: Option<string>,
    postalAddress: Option<string>,
    bio: Option<string>,
    isProfileComplete: bool)

  /** The profile getOrCreateProfile inserts: only the owner, the default language and the flag. */
  function EmptyProfile(userId: UserId): (p: ClientProfile)
    ensures p.userId == userId && !p.isProfileComplete
  {
    ClientProfile(userId, None, None, None, None, None, "en", None, None, None, None, None, None, false)
  }

  // ---------------------------------------------------------------- completion report

  datatype TrackedField = FatherName | DateOfBirth | Gender | Cnic | City | Province | PostalAddress | WhatsappNumber | Bio

  /** The nine fields calculateCompletion inspects, in its order. */
  const TRACKED: seq<TrackedField> := [FatherName, DateOfBirth, Gender, Cnic, City, Province, PostalAddress, WhatsappNumber, Bio]

  /** calculateCompletion inspects every field of the enumeration. */
  lemma {:induction false} EveryFieldTracked()
    ensures forall f :: f in TRACKED
  {
    forall f: TrackedField
      ensures f in TRACKED
    {
      var i := match f
        case FatherName => 0 case DateOfBirth => 1 case Gender => 2 case Cnic => 3 case City => 4
        case Province => 5 case PostalAddress => 6 case WhatsappNumber => 7 case Bio => 8;
      assert TRACKED[i] == f;
    }
  }

  /** The four fields a complete profile needs. */
  const REQUIRED: seq<TrackedField> := [FatherName, Cnic, City, Province]

  /** `val !== undefined && val !== null && String(val).trim() !== ''`; a stored date always passes. */
  predicate FieldFilled(p: ClientProfile, f: TrackedField) {
    match f
    case FatherName => Filled(p.fatherName)
    case DateOfBirth => p.dateOfBirth.Some?
    case Gender => Filled(p.gender)
    case Cnic => Filled(p.cnic)
    case City => Filled(p.city)
    case Province => Filled(p.province)
    case PostalAddress => Filled(p.postalAddress)
    case WhatsappNumber => Filled(p.whatsappNumber)
    case Bio => Filled(p.bio)
  }

  datatype Completion = Completion(percentage: nat, isCompleted: bool, missingFields: seq<TrackedField>)

  /** Math.round(100 * k / 9) for a count `k` of filled fields, in exact integer arithmetic. */
  function RoundedNinths(k: nat): (p: nat)
    ensures 18 * p <= 200 * k + 9 < 18 * p + 18
  {
    (200 * k + 9) / 18
  }

  /** The fields of `fs` that are filled, in order (the `completedFields` filter). */
  function FilledFields(p: ClientProfile, fs: seq<TrackedField>): (r: seq<TrackedField>)
    ensures forall f :: f in r <==> f in fs && FieldFilled(p, f)
  {
    if fs == [] then [] else (if FieldFilled(p, fs[0]) then [fs[0]] else []) + FilledFields(p, fs[1..])
  }

  /** The fields of `fs` that are not filled, in order (the `missingFields` filter). */
  function MissingFields(p: ClientProfile, fs: seq<TrackedField>): (r: seq<TrackedField>)
    ensures forall f :: f in r <==> f in fs && !FieldFilled(p, f)
  {
    if fs == [] then [] else (if FieldFilled(p, fs[0]) then [] else [fs[0]]) + MissingFields(p, fs[1..])
  }

  /** The two filters split the fields: every field lands in exactly one of them. */
  lemma {:induction false} FiltersSplit(p: ClientProfile, fs: seq<TrackedField>)
    ensures |FilledFields(p, fs)| + |MissingFields(p, fs)| == |fs|
  {
    if fs != [] {
      FiltersSplit(p, fs[1..]);
    }
  }

  /** `requiredFields.every(...)` over the four required fields. */
  predicate RequiredFilled(p: ClientProfile) {
    FieldFilled(p, FatherName) && FieldFilled(p, Cnic) && FieldFilled(p, City) && FieldFilled(p, Province)
  }

  /**
   * calculateCompletion: the filled fields give the percentage, the others are reported missing,
   * and the profile counts as completed when the four required fields are filled.
   */
  function CalculateCompletion(p: ClientProfile): (c: Completion)
    ensures forall f :: f in c.missingFields <==> !FieldFilled(p, f)
    ensures 18 * c.percentage <= 200 * (|TRACKED| - |c.missingFields|) + 9 < 18 * c.percentage + 18
    ensures c.isCompleted <==> forall f :: f in REQUIRED ==> FieldFilled(p, f)
  {
    FiltersSplit(p, TRACKED);
    EveryFieldTracked();
    Completion(RoundedNinths(|FilledFields(p, TRACKED)|), RequiredFilled(p), MissingFields(p, TRACKED))
  }

  /** The percentage reaches 100 exactly when nothing is missing, and is 0 exactly when everything is. */
  lemma {:induction false} CompletionExtremes(p: ClientProfile)
    ensures CalculateCompletion(p).percentage == 100 <==> CalculateCompletion(p).missingFields == []
    ensures CalculateCompletion(p).percentage == 0 <==> |CalculateCompletion(p).missingFields| == |TRACKED|
    ensures CalculateCompletion(p).percentage <= 100
  {
    var c := CalculateCompletion(p);
    FiltersSplit(p, TRACKED);
    assert c.missingFields == MissingFields(p, TRACKED);
  }

  // ---------------------------------------------------------------- the pre-save flag

  /** The pre-save hook: `requiredFields.every(field => this[field])`, i.e. each required string is non-empty. */
  predicate PreSaveComplete(p: ClientProfile) {
    Truthy(p.fatherName) && Truthy(p.cnic) && Truthy(p.city) && Truthy(p.province)
  }

  /** A value as the trim setter stores it. */
  predicate TrimmedOpt(v: Option<string>) {
    v.None? || IsTrimmed(v.value)
  }

  /**
   * The pre-save flag tests truthiness while the report tests non-blankness. On raw values they
   * disagree: a father's name of one space makes the flag true and the report incomplete.
   */
  lemma {:induction false} PreSaveFlagDiffersOnBlankValues(p: ClientProfile)
    requires p.fatherName == Some(" ") && Filled(p.cnic) && Filled(p.city) && Filled(p.province)
    ensures PreSaveComplete(p)
    ensures !CalculateCompletion(p).isCompleted
  {
    assert IsSpace(' ');
    assert AllSpace(" ");
    assert !FieldFilled(p, FatherName);
    assert FatherName in REQUIRED;
  }

  /** Once the four required fields went through the trim setter, the flag and the report agree. */
  lemma {:induction false} PreSaveFlagAgreesOnTrimmedValues(p: ClientProfile)
    requires TrimmedOpt(p.fatherName) && TrimmedOpt(p.cnic) && TrimmedOpt(p.city) && TrimmedOpt(p.province)
    ensures PreSaveComplete(p) <==> CalculateCompletion(p).isCompleted
  {
    TrimmedTruthyIsFilled(p.fatherName);
    TrimmedTruthyIsFilled(p.cnic);
    TrimmedTruthyIsFilled(p.city);
    TrimmedTruthyIsFilled(p.province);
    assert CalculateCompletion(p).isCompleted == RequiredFilled(p);
  }

  lemma {:induction false} TrimmedTruthyIsFilled(v: Option<string>)
    requires TrimmedOpt(v)
    ensures Truthy(v) <==> Filled(v)
  {
  }

  // ---------------------------------------------------------------- schema

  /** `^\d{5}-\d{7}-\d{1}$`: five digits, a dash, seven digits, a dash, one digit. */
  predicate CnicFormat(s: string) {
    |s| == 15
    && (forall i :: 0 <= i < 15 && i != 5 && i != 13 ==> '0' <= s[i] <= '9')
    && s[5] == '-' && s[13] == '-'
  }

  predicate Within(v: Option<string>, max: nat) {
    v.None? || |v.value| <= max
  }

  /** The checks the client-profile schema runs on save (a `match` validator accepts the empty string). */
  predicate ValidClientProfile(p: ClientProfile) {
    && Within(p.fatherName, 100) && Within(p.fatherNameUrdu, 100)
    && (p.gender.None? || p.gender.value in {"male", "female", "other"})
    && p.preferredLanguage in LANGUAGES
    && (p.cnic.None? || p.cnic.value == "" || CnicFormat(p.cnic.value))
    && Within(p.city, 50) && Within(p.province, 50)
    && Within(p.postalAddress, 500) && Within(p.bio, 500)
  }

  /** `profile.save()`: validate, then let the pre-save hook set the completeness flag. */
  function SaveClientProfile(p: ClientProfile): (r: Result<ClientProfile>)
    ensures r.Ok? <==> ValidClientProfile(p)
    ensures r.Err? ==> r.error == Validation
    ensures r.Ok? ==> r.value == p.(isProfileComplete := PreSaveComplete(p))
    ensures r.Ok? ==> (r.value.isProfileComplete <==> PreSaveComplete(p))
  {
    if ValidClientProfile(p) then Ok(p.(isProfileComplete := PreSaveComplete(p))) else Err(Validation)
  }
}
