/** The parts of a user account the engagement services read or write. */
module UserModel {
  import opened Common
  import opened Constants

  /** A stored file reference ({publicId, secureUrl}); either part may be missing in old documents. */
  datatype FileRef = FileRef(publicId: Option<BlobId>, secureUrl: Option<string>)

  datatype User = User(
    fullName: Option<string>,
    fullNameUrdu: Option<string>,
    role: string,
    accountStatus: string,
    isDeleted: bool,
    profilePicture: Option<FileRef>)

  /** The account filter of the lawyer queries: a lawyer whose account is verified and not deleted. */
  predicate IsVerifiedLawyer(u: User) {
    u.role == LAWYER && u.accountStatus == "verified" && !u.isDeleted
  }

  /** The populate filter of the suggestion queries: verified and not deleted, whatever the role. */
  predicate IsVerifiedAccount(u: User) {
    u.accountStatus == "verified" && !u.isDeleted
  }
}
