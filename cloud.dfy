/**
 * The storage gateway the services upload files to, seen only as the set of live blob ids.
 * An upload either is rejected (nothing changes) or adds one fresh id; a delete removes an id
 * and is harmless when the id is already gone.
 */
module Cloud {
  import opened Common

  /** A file received with a request (the temp-file path itself is not modelled). */
  datatype UploadFile = UploadFile(originalName: string, size: nat, mimetype: string)

  /** What the gateway answers for an accepted upload. */
  datatype Uploaded = Uploaded(publicId: BlobId, secureUrl: string)

  /** The gateway's delivery address; its exact form is opaque to the services. */
  const DELIVERY_URL: string := "https://res.cloudinary.com/"

  class BlobStore {
    /** The blobs currently stored. */
    var live: set<BlobId>
    /** Every id ever handed out is below `next`, so new ids are fresh. */
    var next: BlobId

    ghost predicate Valid()
      reads this
    {
      forall b :: b in live ==> b < next
    }

    constructor ()
      ensures Valid() && live == {}
    {
      live := {};
      next := 0;
    }

    /**
     * uploadToCloud. `accepted` is the gateway's verdict on this upload, which the services
     * cannot predict: a rejected upload changes nothing, an accepted one stores a fresh blob.
     */
    method Upload(accepted: bool) returns (r: Option<Uploaded>)
      requires Valid()
      modifies this
      ensures Valid()
      ensures !accepted ==> r.None? && live == old(live) && next == old(next)
      ensures accepted ==> r.Some? && r.value.publicId !in old(live) && old(next) <= r.value.publicId < next
      ensures accepted ==> live == old(live) + {r.value.publicId} && r.value.secureUrl != ""
    {
      if !accepted {
        return None;
      }
      var id := next;
      live := live + {id};
      next := next + 1;
      return Some(Uploaded(id, DELIVERY_URL));
    }

    /** deleteFromCloud: removing an id that is not stored changes nothing. */
    method Delete(id: BlobId)
      modifies this`live
      ensures live == old(live) - {id}
    {
      live := live - {id};
    }
  }

  /** The rollback loop: delete every id in `ids`, one at a time. */
  method DeleteEach(store: BlobStore, ids: seq<BlobId>)
    modifies store`live
    ensures store.live == old(store.live) - (set i | 0 <= i < |ids| :: ids[i])
  {
    var k := 0;
    while k < |ids|
      invariant 0 <= k <= |ids|
      invariant store.live == old(store.live) - (set i | 0 <= i < k :: ids[i])
    {
      store.Delete(ids[k]);
      k := k + 1;
    }
  }
}
