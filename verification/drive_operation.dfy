/**
  The drive-operation enumeration (`ILLA_DRIVE_ACTION_REQUEST_TYPE`). Its
  declaration is not part of this model: only four of its members are named
  by the classifier, and their runtime string values are not known. The
  enumeration is therefore a parameter, `DriveEnum`, that gives the values of
  the four named members and lists the values of every other member.
 */
module DriveOperations {
  import opened Optional

  /** A member of the enumeration; `OtherOp` is any member other than the four named ones. */
  datatype DriveOp = DownloadOne | DownloadMultiple | Upload | UploadMultiple | OtherOp(name: string)

  /** The string value of each member of a string enumeration. */
  datatype DriveEnum = DriveEnum(
    downloadOne: string,
    downloadMultiple: string,
    upload: string,
    uploadMultiple: string,
    others: seq<string>)

  /** `Object.values(ILLA_DRIVE_ACTION_REQUEST_TYPE)` (its order plays no part). */
  function Values(e: DriveEnum): seq<string>
  {
    [e.downloadOne, e.downloadMultiple, e.upload, e.uploadMultiple] + e.others
  }

  /** Distinct members have distinct values. */
  predicate WellFormed(e: DriveEnum)
  {
    && e.downloadOne != e.downloadMultiple
    && e.downloadOne != e.upload
    && e.downloadOne != e.uploadMultiple
    && e.downloadMultiple != e.upload
    && e.downloadMultiple != e.uploadMultiple
    && e.upload != e.uploadMultiple
    && forall name :: name in e.others ==>
         name !in [e.downloadOne, e.downloadMultiple, e.upload, e.uploadMultiple]
  }

  /** `op` is a member of `e`. */
  predicate IsMember(e: DriveEnum, op: DriveOp)
  {
    op.OtherOp? ==> op.name in e.others
  }

  /** The runtime value of a member. */
  function ValueOf(e: DriveEnum, op: DriveOp): string
  {
    match op
    case DownloadOne => e.downloadOne
    case DownloadMultiple => e.downloadMultiple
    case Upload => e.upload
    case UploadMultiple => e.uploadMultiple
    case OtherOp(name) => name
  }

  /** The member whose value is `s`, trying the four named members before the
      others; None when `s` is not a value of `e`. */
  function Decode(e: DriveEnum, s: string): (r: Option<DriveOp>)
    ensures r.Some? <==> s in Values(e)
    ensures r.Some? ==> IsMember(e, r.value) && ValueOf(e, r.value) == s
  {
    if s == e.downloadOne then Some(DownloadOne)
    else if s == e.downloadMultiple then Some(DownloadMultiple)
    else if s == e.upload then Some(Upload)
    else if s == e.uploadMultiple then Some(UploadMultiple)
    else if s in e.others then Some(OtherOp(s))
    else None
  }

  /** In a well-formed enumeration every member's value decodes back to that member. */
  lemma DecodeValueOf(e: DriveEnum, op: DriveOp)
    requires WellFormed(e) && IsMember(e, op)
    ensures Decode(e, ValueOf(e, op)) == Some(op)
  {
  }
}
