/** One permission record as `audit_drive` reads it (index.js:78-118):
    fetching the records of an object, deciding whether a record is a
    direct grant to report, an inherited one to skip, or one whose reading
    raises, and the CSV row written for a reported grant. */
module Permissions {
  import opened DriveStore

  /** The value `inherited` takes for a record: a boolean, or the IndexError
      raised by taking the first element of an empty `permissionDetails`. */
  datatype Inherited = Value(b: bool) | IndexError

  /** A grant the report lists: its first detail says, explicitly, that it
      is not inherited. */
  predicate IsDirect(g: Permission) {
    g.permissionDetails.Some? && |g.permissionDetails.value| > 0
    && g.permissionDetails.value[0].inherited == Some(false)
  }

  /** A record whose reading raises: the details list is present and empty. */
  predicate Breaks(g: Permission) {
    g.permissionDetails == Some([])
  }

  /** The first detail of the record, with a missing list read as `[{}]`,
      and its `inherited` key, missing read as `True` (index.js:104-105). */
  function ReadInherited(g: Permission): (r: Inherited)
    ensures r == IndexError <==> Breaks(g)
    ensures r == Value(false) <==> IsDirect(g)
    ensures r == Value(true) <==> !Breaks(g) && !IsDirect(g)
  {
    match g.permissionDetails
    case None => Value(true)
    case Some(details) =>
      if details == [] then IndexError else Value(details[0].inherited.GetOr(true))
  }

  /** What the loop body does with one record: skip it, write a row for it,
      or raise. */
  datatype Verdict = Skip | Report | Raise

  function Decide(g: Permission): (v: Verdict)
    ensures v == Report <==> IsDirect(g)
    ensures v == Raise <==> Breaks(g)
    ensures v == Skip <==> !IsDirect(g) && !Breaks(g)
  {
    match ReadInherited(g)
    case IndexError => Raise
    case Value(b) => if b then Skip else Report
  }

  /** A record with no details, or whose first detail has no `inherited`
      key, is treated as inherited and skipped. */
  lemma MissingMeansInherited(g: Permission)
    requires g.permissionDetails.None? || (g.permissionDetails.value != [] && g.permissionDetails.value[0].inherited.None?)
    ensures ReadInherited(g) == Value(true) && Decide(g) == Skip
  {
  }

  /** The `User/Group` column: the e-mail address when the record has one,
      else the display name, else "N/A" (index.js:110). */
  function Identifier(g: Permission): (r: string)
    ensures g.emailAddress.Some? ==> r == g.emailAddress.value
    ensures g.emailAddress.None? && g.displayName.Some? ==> r == g.displayName.value
    ensures g.emailAddress.None? && g.displayName.None? ==> r == "N/A"
  {
    g.emailAddress.GetOr(g.displayName.GetOr("N/A"))
  }

  /** Python's `str` of a boolean. */
  function PyStr(b: bool): string {
    if b then "True" else "False"
  }

  /** One CSV row (index.js:111-118). */
  datatype ReportRow = ReportRow(
    fileName: string, fileId: Id, grantee: string, granteeType: string, role: string, inherited: string)

  const HEADER: seq<string> := ["File Name", "File ID", "User/Group", "Type", "Role", "Inherited"]

  function Cells(row: ReportRow): (r: seq<string>)
    ensures |r| == |HEADER|
  {
    [row.fileName, row.fileId, row.grantee, row.granteeType, row.role, row.inherited]
  }

  /** The row written for record `g` of the object `fileId` named `fileName`,
      given the value `inherited` was read as. */
  function RowFor(fileName: string, fileId: Id, g: Permission, inherited: bool): (r: ReportRow)
    ensures Cells(r) == [fileName, fileId, Identifier(g), g.granteeType.GetOr(""), g.role.GetOr(""), PyStr(inherited)]
    ensures Cells(r)[5] == (if inherited then "True" else "False")
  {
    ReportRow(fileName, fileId, Identifier(g), g.granteeType.GetOr(""), g.role.GetOr(""), PyStr(inherited))
  }

  /** `get_permissions` (index.js:78-88): the `permissions` list of the
      reply, an absent key reading as the empty list; a call that raised
      yields the empty list. */
  function GetPermissions(acl: map<Id, PermissionsReply>, fileId: Id): (r: seq<Permission>)
    ensures (fileId !in acl || acl[fileId].FetchFailed?) ==> r == []
    ensures fileId in acl && acl[fileId].Fetched? && acl[fileId].permissions.Some? ==> r == acl[fileId].permissions.value
    ensures fileId in acl && acl[fileId].Fetched? && acl[fileId].permissions.None? ==> r == []
  {
    if fileId in acl then
      match acl[fileId]
      case FetchFailed => []
      case Fetched(permissions) => permissions.GetOr([])
    else []
  }
}
