/**
 * The helpers the profile services share: shaping a profile response, finding or creating a
 * user's profile document, and replacing a stored file by uploading the new one first and
 * deleting the old one afterwards.
 */
module ProfileHelper {
  import opened Common
  import opened Errors
  import opened UserModel
  import opened ClientProfileModel
  import opened Cloud

  // ---------------------------------------------------------------- formatProfileResponse

  /** The bookkeeping keys always dropped from a profile document before it is shown. */
  const DEFAULT_REMOVED: seq<string> := ["userId", "__v", "_id", "createdAt", "updatedAt"]

  /**
   * formatProfileResponse, on documents seen as key-value maps (`user` is the account's public
   * document). The profile copy loses the bookkeeping keys and the caller's `fieldsToRemove`,
   * then the three are merged with `extra` over the profile over the user.
   */
  method FormatProfileResponse<V>(user: map<string, V>, profile: map<string, V>, fieldsToRemove: seq<string>,
                                  extra: map<string, V>)
    returns (r: map<string, V>)
    ensures forall k :: k in r <==> k in extra || (k in profile && k !in DEFAULT_REMOVED && k !in fieldsToRemove) || k in user
    ensures forall k :: k in extra ==> r[k] == extra[k]
    ensures forall k :: k !in extra && k in profile && k !in DEFAULT_REMOVED && k !in fieldsToRemove ==> r[k] == profile[k]
    ensures forall k :: k !in extra && !(k in profile && k !in DEFAULT_REMOVED && k !in fieldsToRemove) && k in user ==>
              r[k] == user[k]
  {
    var removed := DEFAULT_REMOVED + fieldsToRemove;
    var shown := profile;
    for i := 0 to |removed|
      invariant forall k :: k in shown <==> k in profile && k !in removed[..i]
      invariant forall k :: k in shown ==> shown[k] == profile[k]
    {
      assert removed[..i + 1] == removed[..i] + [removed[i]];
      shown := shown - {removed[i]};
    }
    assert removed[..|removed|] == removed;
    r := user + shown + extra;
  }

  // ---------------------------------------------------------------- getOrCreateProfile

  /** The account documents the client-profile service reads and writes, keyed by user id. */
  class Accounts {
    var users: map<UserId, User>
    /** One client profile per user (the unique userId index). */
    var clientProfiles: map<UserId, ClientProfile>

    constructor ()
      ensures users == map[] && clientProfiles == map[]
    {
      users := map[];
      clientProfiles := map[];
    }
  }

  /**
   * getOrCreateProfile(ClientProfile, userId): the user's profile when there is one; otherwise
   * exactly one new profile for the user, with the schema defaults, is created and returned.
   */
  method GetOrCreateProfile(acc: Accounts, userId: UserId) returns (p: ClientProfile)
    modifies acc`clientProfiles
    ensures userId in old(acc.clientProfiles) ==> p == old(acc.clientProfiles[userId]) && acc.clientProfiles == old(acc.clientProfiles)
    ensures userId !in old(acc.clientProfiles) ==> p == EmptyProfile(userId) && acc.clientProfiles == old(acc.clientProfiles)[userId := p]
    ensures userId in acc.clientProfiles && acc.clientProfiles[userId] == p
  {
    if userId in acc.clientProfiles {
      return acc.clientProfiles[userId];
    }
    p := EmptyProfile(userId);
    acc.clientProfiles := acc.clientProfiles[userId := p];
  }

  // ---------------------------------------------------------------- handleFileUpload

  /** The blob a stored file reference points to, as a set of at most one id. */
  function RefIds(doc: Option<FileRef>): (ids: set<BlobId>)
    ensures |ids| <= 1
    ensures forall b :: b in ids <==> doc.Some? && doc.value.publicId == Some(b)
  {
    if doc.Some? && doc.value.publicId.Some? then {doc.value.publicId.value} else {}
  }

  /**
   * handleFileUpload: without a file nothing happens and there is no result. Otherwise the new
   * file is uploaded first; a rejected upload fails and leaves every stored blob, the old file's
   * included, as it was. After an accepted upload the old file's blob, if it names one, is deleted.
   */
  method HandleFileUpload(blobs: BlobStore, file: Option<UploadFile>, existing: Option<FileRef>, accepted: bool)
    returns (r: Result<Option<Uploaded>>)
    requires blobs.Valid()
    modifies blobs
    ensures blobs.Valid()
    ensures file.None? ==> r == Ok(None) && blobs.live == old(blobs.live) && blobs.next == old(blobs.next)
    ensures file.Some? && !accepted ==> r == Err(UploadFailed) && blobs.live == old(blobs.live) && blobs.next == old(blobs.next)
    ensures file.Some? && accepted ==>
              && r.Ok? && r.value.Some?
              && r.value.value.publicId !in old(blobs.live) && old(blobs.next) <= r.value.value.publicId < blobs.next
              && r.value.value.secureUrl != ""
              && blobs.live == (old(blobs.live) + {r.value.value.publicId}) - RefIds(existing)
              && ((forall b :: b in RefIds(existing) ==> b < old(blobs.next)) ==> r.value.value.publicId in blobs.live)
  {
    if file.None? {
      return Ok(None);
    }
    var uploaded := blobs.Upload(accepted);
    if uploaded.None? {
      return Err(UploadFailed);
    }
    if existing.Some? && existing.value.publicId.Some? {
      blobs.Delete(existing.value.publicId.value);
    }
    return Ok(uploaded);
  }
}
