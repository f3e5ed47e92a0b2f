/**
 * The client-profile update: one-time identity fields that are written only while empty,
 * editable fields that any request may overwrite, the profile picture and CNIC document uploads,
 * and the two saves. The method as written deletes the old profile picture before anything is
 * saved; the corrected method defers that delete until the new picture is stored.
 */
module ClientService {
  import opened Common
  import opened Errors
  import opened UserModel
  import opened ClientProfileModel
  import opened Cloud
  import opened ProfileHelper

  /** The request body; a field left out of the body (`undefined`) is None. */
  datatype ClientUpdate = ClientUpdate(
    fullName: Option<string>,
    fullNameUrdu: Option<string>,
    fatherName: Option<string>,
    fatherNameUrdu: Option<string>,
    cnic: Option<string>,
    dateOfBirth: Option<nat>,
    gender: Option<string>,
    city: Option<string>,
    province: Option<string>,
    postalAddress: Option<string>,
    whatsappNumber: Option<string>,
    preferredLanguage: Option<string>,
    bio: Option<string>)

  /** The files of the request, at most one of each kind. */
  datatype ClientFiles = ClientFiles(profilePicture: Option<UploadFile>, cnicDocument: Option<UploadFile>)

  /** The gateway's verdicts on the two uploads the request may cause. */
  datatype UploadVerdicts = UploadVerdicts(picture: bool, cnicDocument: bool)

  /** What the service answers: the saved account, the saved profile and its completion report. */
  datatype ProfileView = ProfileView(user: User, profile: ClientProfile, completion: Completion)

  // ---------------------------------------------------------------- field rules

  /**
   * A one-time field: a given value is written (through the schema's trim setter) only while the
   * field is empty; once it holds a non-empty value it is never overwritten.
   */
  function OneTime(current: Option<string>, given: Option<string>): (v: Option<string>)
    ensures Truthy(current) ==> v == current
    ensures given.None? ==> v == current
    ensures given.Some? && !Truthy(current) ==> v == Some(Trim(given.value))
  {
    if given.Some? && !Truthy(current) then Some(Trim(given.value)) else current
  }

  /** An editable string field with a trim setter: any given value overwrites it. */
  function Editable(current: Option<string>, given: Option<string>): (v: Option<string>)
    ensures given.None? ==> v == current
    ensures given.Some? ==> v == Some(Trim(given.value))
  {
    if given.Some? then Some(Trim(given.value)) else current
  }

  /** An editable field stored as given (no setter): any given value overwrites it. */
  function Overwritten<T>(current: T, given: Option<T>): (v: T)
    ensures given.None? ==> v == current
    ensures given.Some? ==> v == given.value
  {
    if given.Some? then given.value else current
  }

  /** An editable optional field stored as given (no setter): any given value overwrites it. */
  function Provided<T>(current: Option<T>, given: Option<T>): (v: Option<T>)
    ensures given.None? ==> v == current
    ensures given.Some? ==> v == given
  {
    if given.Some? then given else current
  }

  /** The account after the request's fields: only the two names, both one-time. */
  function UpdatedUser(u: User, d: ClientUpdate): (v: User)
    ensures v.fullName == OneTime(u.fullName, d.fullName) && v.fullNameUrdu == OneTime(u.fullNameUrdu, d.fullNameUrdu)
    ensures v.(fullName := u.fullName, fullNameUrdu := u.fullNameUrdu) == u
  {
    u.(fullName := OneTime(u.fullName, d.fullName), fullNameUrdu := OneTime(u.fullNameUrdu, d.fullNameUrdu))
  }

  /** The three one-time fields of the profile. */
  function IdentityFields(p: ClientProfile, d: ClientUpdate): (q: ClientProfile)
    ensures q.(fatherName := p.fatherName, fatherNameUrdu := p.fatherNameUrdu, cnic := p.cnic) == p
  {
    p.(fatherName := OneTime(p.fatherName, d.fatherName),
       fatherNameUrdu := OneTime(p.fatherNameUrdu, d.fatherNameUrdu),
       cnic := OneTime(p.cnic, d.cnic))
  }

  /** The editable fields without a trim setter. */
  function DetailFields(p: ClientProfile, d: ClientUpdate): (q: ClientProfile)
    ensures q.(dateOfBirth := p.dateOfBirth, gender := p.gender, preferredLanguage := p.preferredLanguage) == p
  {
    p.(dateOfBirth := Provided(p.dateOfBirth, d.dateOfBirth),
       gender := Provided(p.gender, d.gender),
       preferredLanguage := Overwritten(p.preferredLanguage, d.preferredLanguage))
  }

  /** The editable fields with a trim setter. */
  function ContactFields(p: ClientProfile, d: ClientUpdate): (q: ClientProfile)
    ensures q.(city := p.city, province := p.province, postalAddress := p.postalAddress,
               whatsappNumber := p.whatsappNumber, bio := p.bio) == p
  {
    p.(city := Editable(p.city, d.city),
       province := Editable(p.province, d.province),
       postalAddress := Editable(p.postalAddress, d.postalAddress),
       whatsappNumber := Editable(p.whatsappNumber, d.whatsappNumber),
       bio := Editable(p.bio, d.bio))
  }

  /**
   * The profile after the request's fields: each of the three one-time fields follows OneTime,
   * each of the eight editable ones follows Editable, Provided or Overwritten, and the document,
   * owner and completion flag are untouched.
   */
  function UpdatedProfile(p: ClientProfile, d: ClientUpdate): (q: ClientProfile)
    ensures q.fatherName == OneTime(p.fatherName, d.fatherName)
    ensures q.fatherNameUrdu == OneTime(p.fatherNameUrdu, d.fatherNameUrdu)
    ensures q.cnic == OneTime(p.cnic, d.cnic)
    ensures q.dateOfBirth == Provided(p.dateOfBirth, d.dateOfBirth) && q.gender == Provided(p.gender, d.gender)
    ensures q.preferredLanguage == Overwritten(p.preferredLanguage, d.preferredLanguage)
    ensures q.city == Editable(p.city, d.city) && q.province == Editable(p.province, d.province)
    ensures q.postalAddress == Editable(p.postalAddress, d.postalAddress)
    ensures q.whatsappNumber == Editable(p.whatsappNumber, d.whatsappNumber)
    ensures q.bio == Editable(p.bio, d.bio)
    ensures q.userId == p.userId && q.cnicDocument == p.cnicDocument && q.isProfileComplete == p.isProfileComplete
  {
    ContactFields(DetailFields(IdentityFields(p, d), d), d)
  }

  /**
   * The one-time fields are set at most once: after a first update that filled them with
   * non-blank values, no later request changes them, whatever it carries.
   */
  lemma {:induction false} OneTimeFieldsStick(u: User, p: ClientProfile, first: ClientUpdate, later: ClientUpdate)
    requires Truthy(UpdatedUser(u, first).fullName) && Truthy(UpdatedProfile(p, first).cnic)
    requires Truthy(UpdatedProfile(p, first).fatherName)
    ensures UpdatedUser(UpdatedUser(u, first), later).fullName == UpdatedUser(u, first).fullName
    ensures UpdatedProfile(UpdatedProfile(p, first), later).cnic == UpdatedProfile(p, first).cnic
    ensures UpdatedProfile(UpdatedProfile(p, first), later).fatherName == UpdatedProfile(p, first).fatherName
  {
    var u1 := UpdatedUser(u, first);
    var p1 := UpdatedProfile(p, first);
    assert UpdatedUser(u1, later).fullName == OneTime(u1.fullName, later.fullName);
    assert UpdatedProfile(p1, later).cnic == OneTime(p1.cnic, later.cnic);
    assert UpdatedProfile(p1, later).fatherName == OneTime(p1.fatherName, later.fatherName);
  }

  /** A request that carries no field leaves the account and the profile exactly as they were. */
  lemma {:induction false} EmptyRequestChangesNothing(u: User, p: ClientProfile)
    ensures var none := ClientUpdate(None, None, None, None, None, None, None, None, None, None, None, None, None);
            UpdatedUser(u, none) == u && UpdatedProfile(p, none) == p
  {
    var none := ClientUpdate(None, None, None, None, None, None, None, None, None, None, None, None, None);
    assert UpdatedUser(u, none).(fullName := u.fullName, fullNameUrdu := u.fullNameUrdu) == u;
    var q := UpdatedProfile(p, none);
    assert q.fatherName == p.fatherName && q.fatherNameUrdu == p.fatherNameUrdu && q.cnic == p.cnic;
  }

  /** The assignments of the two one-time account fields. */
  method AssignNames(user: User, d: ClientUpdate) returns (u: User)
    ensures u == UpdatedUser(user, d)
  {
    u := user;
    if d.fullName.Some? && !Truthy(u.fullName) {
      u := u.(fullName := Some(Trim(d.fullName.value)));
    }
    if d.fullNameUrdu.Some? && !Truthy(u.fullNameUrdu) {
      u := u.(fullNameUrdu := Some(Trim(d.fullNameUrdu.value)));
    }
  }

  /** The assignments of the three one-time profile fields. */
  method AssignIdentity(profile: ClientProfile, d: ClientUpdate) returns (p: ClientProfile)
    ensures p == IdentityFields(profile, d)
  {
    p := profile;
    if d.fatherName.Some? && !Truthy(p.fatherName) {
      p := p.(fatherName := Some(Trim(d.fatherName.value)));
    }
    if d.fatherNameUrdu.Some? && !Truthy(p.fatherNameUrdu) {
      p := p.(fatherNameUrdu := Some(Trim(d.fatherNameUrdu.value)));
    }
    if d.cnic.Some? && !Truthy(p.cnic) {
      p := p.(cnic := Some(Trim(d.cnic.value)));
    }
  }

  /** The assignments of the editable fields stored as given. */
  method AssignDetails(profile: ClientProfile, d: ClientUpdate) returns (p: ClientProfile)
    ensures p == DetailFields(profile, d)
  {
    p := profile;
    if d.dateOfBirth.Some? {
      p := p.(dateOfBirth := d.dateOfBirth);
    }
    if d.gender.Some? {
      p := p.(gender := d.gender);
    }
    if d.preferredLanguage.Some? {
      p := p.(preferredLanguage := d.preferredLanguage.value);
    }
  }

  /** The assignments of the editable fields that are trimmed on the way in. */
  method AssignContact(profile: ClientProfile, d: ClientUpdate) returns (p: ClientProfile)
    ensures p == ContactFields(profile, d)
  {
    p := profile;
    if d.city.Some? {
      p := p.(city := Some(Trim(d.city.value)));
    }
    if d.province.Some? {
      p := p.(province := Some(Trim(d.province.value)));
    }
    if d.postalAddress.Some? {
      p := p.(postalAddress := Some(Trim(d.postalAddress.value)));
    }
    if d.whatsappNumber.Some? {
      p := p.(whatsappNumber := Some(Trim(d.whatsappNumber.value)));
    }
    if d.bio.Some? {
      p := p.(bio := Some(Trim(d.bio.value)));
    }
  }

  // ---------------------------------------------------------------- saving

  /** The user schema's checks on the fields the service writes: a required name, both names at most 100 characters. */
  predicate ValidUser(u: User) {
    u.fullName.Some? && u.fullName.value != "" && |u.fullName.value| <= 100 && Within(u.fullNameUrdu, 100)
  }

  /** `profile.cnicDocument?.secureUrl` is set: such a profile never takes another CNIC document. */
  predicate HasCnicDocument(p: ClientProfile) {
    p.cnicDocument.Some? && Truthy(p.cnicDocument.value.secureUrl)
  }

  function AsRef(up: Uploaded): (f: FileRef)
    ensures f.publicId == Some(up.publicId)
  {
    FileRef(Some(up.publicId), Some(up.secureUrl))
  }

  /** The user's stored picture, if it names a blob, is a blob the gateway still stores. */
  predicate PictureLive(users: map<UserId, User>, live: set<BlobId>, userId: UserId) {
    userId in users ==> RefIds(users[userId].profilePicture) <= live
  }

  /**
   * The picture step: handleFileUpload with the request's picture and `existing` as the file it
   * replaces. On success the account names the new blob; `existing`'s blob, if any, is gone.
   */
  method UploadPicture(blobs: BlobStore, u: User, file: Option<UploadFile>, accepted: bool, existing: Option<FileRef>)
    returns (r: Result<User>)
    requires blobs.Valid()
    modifies blobs
    ensures blobs.Valid() && old(blobs.next) <= blobs.next
    ensures file.None? ==> r == Ok(u) && blobs.live == old(blobs.live)
    ensures file.Some? && !accepted ==> r == Err(UploadFailed) && blobs.live == old(blobs.live)
    ensures file.Some? && accepted ==>
              && r.Ok? && r.value.(profilePicture := u.profilePicture) == u
              && RefIds(r.value.profilePicture) != {} && RefIds(r.value.profilePicture) !! old(blobs.live)
              && blobs.live == (old(blobs.live) + RefIds(r.value.profilePicture)) - RefIds(existing)
  {
    var up := HandleFileUpload(blobs, file, existing, accepted);
    if up.Err? {
      return Err(up.error);
    }
    if up.value.None? {
      return Ok(u);
    }
    r := Ok(u.(profilePicture := Some(AsRef(up.value.value))));
    assert RefIds(r.value.profilePicture) == {up.value.value.publicId};
  }

  /**
   * The CNIC document step: a document is uploaded only when the request carries one and the
   * profile has none yet; the gateway only ever adds fresh blobs here.
   */
  method UploadCnic(blobs: BlobStore, p: ClientProfile, file: Option<UploadFile>, accepted: bool)
    returns (r: Result<ClientProfile>)
    requires blobs.Valid()
    modifies blobs
    ensures blobs.Valid() && old(blobs.live) <= blobs.live
    ensures forall b :: b in blobs.live && b !in old(blobs.live) ==> old(blobs.next) <= b
    ensures !(file.Some? && !HasCnicDocument(p)) ==> r == Ok(p) && blobs.live == old(blobs.live)
    ensures file.Some? && !HasCnicDocument(p) && !accepted ==> r == Err(UploadFailed)
    ensures file.Some? && !HasCnicDocument(p) && accepted ==>
              && r.Ok? && r.value.(cnicDocument := p.cnicDocument) == p && HasCnicDocument(r.value)
              && RefIds(r.value.cnicDocument) != {} && RefIds(r.value.cnicDocument) <= blobs.live
              && RefIds(r.value.cnicDocument) !! old(blobs.live)
  {
    if file.None? || HasCnicDocument(p) {
      return Ok(p);
    }
    var up := HandleFileUpload(blobs, file, None, accepted);
    if up.Err? {
      return Err(up.error);
    }
    r := Ok(p.(cnicDocument := Some(AsRef(up.value.value))));
    assert RefIds(r.value.cnicDocument) == {up.value.value.publicId};
  }

  /** Writing a key twice is writing it once with the second value. */
  lemma OverwriteTwice(m: map<UserId, ClientProfile>, k: UserId, first: ClientProfile, second: ClientProfile)
    ensures m[k := first][k := second] == m[k := second]
  {
  }

  /** The gateway accepts every upload the request triggers: the picture, and the CNIC document when the profile has none. */
  predicate UploadsAccepted(p: ClientProfile, files: ClientFiles, verdicts: UploadVerdicts) {
    && (files.profilePicture.Some? ==> verdicts.picture)
    && (files.cnicDocument.Some? && !HasCnicDocument(p) ==> verdicts.cnicDocument)
  }

  /** The profile getOrCreateProfile yields: the stored one, or a new one with the schema defaults. */
  function Loaded(profiles: map<UserId, ClientProfile>, userId: UserId): (p: ClientProfile)
    ensures userId in profiles ==> p == profiles[userId]
    ensures userId !in profiles ==> p.userId == userId && !p.isProfileComplete && p.cnicDocument.None?
  {
    if userId in profiles then profiles[userId] else EmptyProfile(userId)
  }

  /**
   * The steps before the saves: find or create the profile, apply the field rules, then the
   * picture upload and the CNIC document upload. With `deleteAtUpload` the picture upload deletes
   * the stored picture at once, as handleFileUpload does; without it the old blob is kept.
   * Nothing but the created profile is written to the accounts.
   */
  method Stage(acc: Accounts, blobs: BlobStore, userId: UserId, d: ClientUpdate, files: ClientFiles,
               verdicts: UploadVerdicts, deleteAtUpload: bool)
    returns (r: Result<(User, ClientProfile)>)
    requires userId in acc.users && blobs.Valid()
    modifies acc`clientProfiles, blobs
    ensures blobs.Valid()
    ensures acc.clientProfiles == old(acc.clientProfiles)[userId := Loaded(old(acc.clientProfiles), userId)]
    ensures r.Err? ==> r == Err(UploadFailed)
    ensures r.Ok? <==> UploadsAccepted(Loaded(old(acc.clientProfiles), userId), files, verdicts)
    ensures r.Ok? ==> r.value.0.(profilePicture := old(acc.users[userId].profilePicture)) == UpdatedUser(old(acc.users[userId]), d)
    ensures r.Ok? ==> r.value.1.(cnicDocument := Loaded(old(acc.clientProfiles), userId).cnicDocument)
                      == UpdatedProfile(Loaded(old(acc.clientProfiles), userId), d)
    ensures (&& files.profilePicture.Some? && verdicts.picture && files.cnicDocument.Some? && !verdicts.cnicDocument
             && !HasCnicDocument(Loaded(old(acc.clientProfiles), userId))) ==> r == Err(UploadFailed)
    ensures deleteAtUpload && files.profilePicture.Some? && verdicts.picture ==>
              RefIds(old(acc.users[userId].profilePicture)) * old(blobs.live) !! blobs.live
    ensures !deleteAtUpload ==> old(blobs.live) <= blobs.live
    ensures !deleteAtUpload && r.Ok? && files.profilePicture.Some? ==>
              RefIds(r.value.0.profilePicture) <= blobs.live && RefIds(r.value.0.profilePicture) !! old(blobs.live)
    ensures r.Ok? && files.profilePicture.None? ==> r.value.0.profilePicture == old(acc.users[userId].profilePicture)
    ensures r.Ok? && files.profilePicture.Some? ==>
              RefIds(r.value.0.profilePicture) != {} && RefIds(r.value.0.profilePicture) !! old(blobs.live)
    ensures r.Ok? && files.profilePicture.Some? && (deleteAtUpload ==> PictureLive(old(acc.users), old(blobs.live), userId)) ==>
              RefIds(r.value.0.profilePicture) <= blobs.live
    ensures r.Ok? && !(files.cnicDocument.Some? && !HasCnicDocument(Loaded(old(acc.clientProfiles), userId))) ==>
              r.value.1.cnicDocument == Loaded(old(acc.clientProfiles), userId).cnicDocument
    ensures r.Ok? && files.cnicDocument.Some? && !HasCnicDocument(Loaded(old(acc.clientProfiles), userId)) ==>
              && HasCnicDocument(r.value.1) && RefIds(r.value.1.cnicDocument) != {}
              && RefIds(r.value.1.cnicDocument) <= blobs.live && RefIds(r.value.1.cnicDocument) !! old(blobs.live)
  {
    ghost var profiles0 := acc.clientProfiles;
    var profile := GetOrCreateProfile(acc, userId);
    assert profile == Loaded(profiles0, userId);
    var u := AssignNames(acc.users[userId], d);
    var p := AssignIdentity(profile, d);
    p := AssignDetails(p, d);
    p := AssignContact(p, d);
    var pictured := UploadPicture(blobs, u, files.profilePicture, verdicts.picture,
                                  if deleteAtUpload then u.profilePicture else None);
    if pictured.Err? {
      return Err(pictured.error);
    }
    var documented := UploadCnic(blobs, p, files.cnicDocument, verdicts.cnicDocument);
    if documented.Err? {
      return Err(documented.error);
    }
    return Ok((pictured.value, documented.value));
  }

  /** profile.save: the profile is stored only when it passes its validators. */
  method SaveProfile(acc: Accounts, userId: UserId, u: User, p: ClientProfile) returns (r: Result<ProfileView>)
    modifies acc`clientProfiles
    ensures SaveClientProfile(p).Err? ==> r == Err(SaveClientProfile(p).error) && acc.clientProfiles == old(acc.clientProfiles)
    ensures SaveClientProfile(p).Ok? ==>
              && r == Ok(ProfileView(u, SaveClientProfile(p).value, CalculateCompletion(SaveClientProfile(p).value)))
              && acc.clientProfiles == old(acc.clientProfiles)[userId := SaveClientProfile(p).value]
  {
    var saved := SaveClientProfile(p);
    if saved.Err? {
      return Err(saved.error);
    }
    acc.clientProfiles := acc.clientProfiles[userId := saved.value];
    return Ok(ProfileView(u, saved.value, CalculateCompletion(saved.value)));
  }

  /**
   * The steps after staging: the account is checked and written, the blob named by `stale` (if
   * any) is deleted, then the profile is saved. An account that fails its validators writes nothing.
   */
  method Commit(acc: Accounts, blobs: BlobStore, userId: UserId, u: User, p: ClientProfile, stale: Option<BlobId>)
    returns (r: Result<ProfileView>)
    requires blobs.Valid()
    modifies acc`users, acc`clientProfiles, blobs`live
    ensures blobs.Valid()
    ensures !ValidUser(u) ==>
              && r == Err(Validation) && acc.users == old(acc.users) && acc.clientProfiles == old(acc.clientProfiles)
              && blobs.live == old(blobs.live)
    ensures ValidUser(u) ==>
              && acc.users == old(acc.users)[userId := u]
              && blobs.live == old(blobs.live) - (if stale.Some? then {stale.value} else {})
    ensures r.Ok? <==> ValidUser(u) && ValidClientProfile(p)
    ensures r.Err? ==> acc.clientProfiles == old(acc.clientProfiles)
    ensures r.Ok? ==>
              && r.value == ProfileView(u, p.(isProfileComplete := PreSaveComplete(p)), CalculateCompletion(r.value.profile))
              && acc.clientProfiles == old(acc.clientProfiles)[userId := r.value.profile]
  {
    if !ValidUser(u) {
      return Err(Validation);
    }
    acc.users := acc.users[userId := u];
    if stale.Some? {
      blobs.Delete(stale.value);
    }
    r := SaveProfile(acc, userId, u, p);
  }

  // ---------------------------------------------------------------- updateClientProfileService as written

  /**
   * updateClientProfileService as written. A missing user is NotFound and nothing changes.
   * Otherwise the staged account and profile are saved in turn, each only if it passes its
   * validators: a profile that fails leaves the account already saved.
   *
   * Because the staged picture upload deletes the old picture before any save, a request that
   * fails after it (here: a rejected CNIC document) leaves the stored account naming a deleted blob.
   */
  method UpdateClientProfileAsWritten(acc: Accounts, blobs: BlobStore, userId: UserId, d: ClientUpdate,
                                      files: ClientFiles, verdicts: UploadVerdicts)
    returns (r: Result<ProfileView>)
    requires blobs.Valid()
    modifies acc`users, acc`clientProfiles, blobs
    ensures blobs.Valid()
    ensures userId !in old(acc.users) ==>
              && r == Err(NotFound) && acc.users == old(acc.users) && acc.clientProfiles == old(acc.clientProfiles)
              && blobs.live == old(blobs.live)
    ensures userId in old(acc.users) ==> userId in acc.clientProfiles
    ensures r.Ok? ==>
              && acc.users == old(acc.users)[userId := r.value.user]
              && acc.clientProfiles == old(acc.clientProfiles)[userId := r.value.profile]
              && r.value.completion == CalculateCompletion(r.value.profile)
              && ValidUser(r.value.user) && ValidClientProfile(r.value.profile)
    ensures r.Ok? <==> && userId in old(acc.users)
                       && UploadsAccepted(Loaded(old(acc.clientProfiles), userId), files, verdicts)
                       && ValidUser(UpdatedUser(old(acc.users[userId]), d))
                       && ValidClientProfile(UpdatedProfile(Loaded(old(acc.clientProfiles), userId), d))
    ensures r.Ok? ==> && userId in old(acc.users)
                      && r.value.user.(profilePicture := old(acc.users[userId]).profilePicture)
                         == UpdatedUser(old(acc.users[userId]), d)
                      && r.value.profile.(cnicDocument := Loaded(old(acc.clientProfiles), userId).cnicDocument,
                                          isProfileComplete := Loaded(old(acc.clientProfiles), userId).isProfileComplete)
                         == UpdatedProfile(Loaded(old(acc.clientProfiles), userId), d)
                      && (r.value.profile.isProfileComplete <==> PreSaveComplete(r.value.profile))
    ensures r.Ok? && files.profilePicture.None? ==> r.value.user.profilePicture == old(acc.users[userId]).profilePicture
    ensures r.Ok? && files.profilePicture.Some? ==>
              && RefIds(r.value.user.profilePicture) != {} && RefIds(r.value.user.profilePicture) !! old(blobs.live)
              && (PictureLive(old(acc.users), old(blobs.live), userId) ==> RefIds(r.value.user.profilePicture) <= blobs.live)
    ensures r.Ok? && !(files.cnicDocument.Some? && !HasCnicDocument(Loaded(old(acc.clientProfiles), userId))) ==>
              r.value.profile.cnicDocument == Loaded(old(acc.clientProfiles), userId).cnicDocument
    ensures r.Ok? && files.cnicDocument.Some? && !HasCnicDocument(Loaded(old(acc.clientProfiles), userId)) ==>
              && HasCnicDocument(r.value.profile) && RefIds(r.value.profile.cnicDocument) != {}
              && RefIds(r.value.profile.cnicDocument) !! old(blobs.live)
              && (PictureLive(old(acc.users), old(blobs.live), userId) ==> RefIds(r.value.profile.cnicDocument) <= blobs.live)
    ensures (&& userId in old(acc.users) && PictureLive(old(acc.users), old(blobs.live), userId)
             && RefIds(old(acc.users[userId].profilePicture)) != {}
             && files.profilePicture.Some? && verdicts.picture
             && files.cnicDocument.Some? && !verdicts.cnicDocument
             && !HasCnicDocument(Loaded(old(acc.clientProfiles), userId))) ==>
              && r == Err(UploadFailed) && acc.users == old(acc.users)
              && !PictureLive(acc.users, blobs.live, userId)
  {
    if userId !in acc.users {
      return Err(NotFound);
    }
    var staged := Stage(acc, blobs, userId, d, files, verdicts, true);
    if staged.Err? {
      return Err(staged.error);
    }
    var (u, p) := staged.value;
    r := Commit(acc, blobs, userId, u, p, None);
    if r.Ok? {
      OverwriteTwice(old(acc.clientProfiles), userId, Loaded(old(acc.clientProfiles), userId), r.value.profile);
    }
  }

  // ---------------------------------------------------------------- corrected

  /**
   * updateClientProfileService with the old picture deleted only once the account that names
   * the new picture is saved. Whatever the outcome, a user whose stored picture named a stored
   * blob still does; a successful request stores what the method as written stores.
   */
  method UpdateClientProfile(acc: Accounts, blobs: BlobStore, userId: UserId, d: ClientUpdate,
                             files: ClientFiles, verdicts: UploadVerdicts)
    returns (r: Result<ProfileView>)
    requires blobs.Valid()
    modifies acc`users, acc`clientProfiles, blobs
    ensures blobs.Valid()
    ensures userId !in old(acc.users) ==>
              && r == Err(NotFound) && acc.users == old(acc.users) && acc.clientProfiles == old(acc.clientProfiles)
              && blobs.live == old(blobs.live)
    ensures userId in old(acc.users) ==> userId in acc.clientProfiles
    ensures r.Ok? ==>
              && acc.users == old(acc.users)[userId := r.value.user]
              && acc.clientProfiles == old(acc.clientProfiles)[userId := r.value.profile]
              && r.value.completion == CalculateCompletion(r.value.profile)
              && ValidUser(r.value.user) && ValidClientProfile(r.value.profile)
    ensures r.Ok? <==> && userId in old(acc.users)
                       && UploadsAccepted(Loaded(old(acc.clientProfiles), userId), files, verdicts)
                       && ValidUser(UpdatedUser(old(acc.users[userId]), d))
                       && ValidClientProfile(UpdatedProfile(Loaded(old(acc.clientProfiles), userId), d))
    ensures r.Ok? ==> && userId in old(acc.users)
                      && r.value.user.(profilePicture := old(acc.users[userId]).profilePicture)
                         == UpdatedUser(old(acc.users[userId]), d)
                      && r.value.profile.(cnicDocument := Loaded(old(acc.clientProfiles), userId).cnicDocument,
                                          isProfileComplete := Loaded(old(acc.clientProfiles), userId).isProfileComplete)
                         == UpdatedProfile(Loaded(old(acc.clientProfiles), userId), d)
                      && (r.value.profile.isProfileComplete <==> PreSaveComplete(r.value.profile))
    ensures r.Ok? && files.profilePicture.None? ==> r.value.user.profilePicture == old(acc.users[userId]).profilePicture
    ensures r.Ok? && files.profilePicture.Some? ==>
              && RefIds(r.value.user.profilePicture) != {} && RefIds(r.value.user.profilePicture) !! old(blobs.live)
              && (PictureLive(old(acc.users), old(blobs.live), userId) ==> RefIds(r.value.user.profilePicture) <= blobs.live)
    ensures r.Ok? && !(files.cnicDocument.Some? && !HasCnicDocument(Loaded(old(acc.clientProfiles), userId))) ==>
              r.value.profile.cnicDocument == Loaded(old(acc.clientProfiles), userId).cnicDocument
    ensures r.Ok? && files.cnicDocument.Some? && !HasCnicDocument(Loaded(old(acc.clientProfiles), userId)) ==>
              && HasCnicDocument(r.value.profile) && RefIds(r.value.profile.cnicDocument) != {}
              && RefIds(r.value.profile.cnicDocument) !! old(blobs.live)
              && (PictureLive(old(acc.users), old(blobs.live), userId) ==> RefIds(r.value.profile.cnicDocument) <= blobs.live)
    ensures PictureLive(old(acc.users), old(blobs.live), userId) ==> PictureLive(acc.users, blobs.live, userId)
  {
    if userId !in acc.users {
      return Err(NotFound);
    }
    var stored := acc.users[userId].profilePicture;
    var staged := Stage(acc, blobs, userId, d, files, verdicts, false);
    if staged.Err? {
      return Err(staged.error);
    }
    var (u, p) := staged.value;
    var stale := if files.profilePicture.Some? && stored.Some? && stored.value.publicId.Some?
                 then Some(stored.value.publicId.value) else None;
    r := Commit(acc, blobs, userId, u, p, stale);
    if r.Ok? {
      OverwriteTwice(old(acc.clientProfiles), userId, Loaded(old(acc.clientProfiles), userId), r.value.profile);
    }
  }
}
