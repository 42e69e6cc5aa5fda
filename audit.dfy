/** `audit_drive` (index.js:91-120): walk the drive, then, for every object
    found and every permission record of it, write a CSV row for each direct
    grant. A record whose `permissionDetails` is present but empty raises an
    IndexError that nothing catches: the run stops there, and the file keeps
    the header and the rows written before it.

    `FileRows` and `AuditRows` follow the two loops record by record. The
    reference description is `DirectRows`/`AllDirect` cut at the first
    raising record (`FirstBreak`/`FirstBreakingFile`); `AuditRowsSpec`
    connects the two, and `AuditDrive` is the loop proved to write it. */
module Audit {
  import opened DriveStore
  import opened TreeWalker
  import opened Permissions
  import opened WalkerProofs
  import opened WalkProperties
  import opened SingleParent

  /** The rows written so far, and whether the run is still going. */
  datatype Outcome = Outcome(rows: seq<ReportRow>, completed: bool)

  /** The records of an object, as `get_permissions` returns them. */
  function Grants(acl: map<Id, PermissionsReply>, x: Found): seq<Permission> {
    GetPermissions(acl, x.file.id)
  }

  /** The inner loop (index.js:103-118) over the records `gs` of object `x`:
      skip a record read as inherited, write a row for the others, and stop
      the run at a record whose reading raises. */
  function FileRows(x: Found, gs: seq<Permission>): (r: Outcome)
    ensures |r.rows| <= |gs|
    ensures r.completed <==> forall j :: 0 <= j < |gs| ==> !Breaks(gs[j])
    ensures forall row :: row in r.rows ==> row.fileName == x.fullPath && row.fileId == x.file.id && row.inherited == "False"
    decreases |gs|
  {
    if gs == [] then Outcome([], true)
    else
      var o := FileRows(x, gs[..|gs| - 1]);
      var g := gs[|gs| - 1];
      assert forall j :: 0 <= j < |gs| - 1 ==> gs[..|gs| - 1][j] == gs[j];
      if !o.completed then o
      else
        match ReadInherited(g)
        case IndexError => o.(completed := false)
        case Value(b) => if b then o else o.(rows := o.rows + [RowFor(x.fullPath, x.file.id, g, b)])
  }

  /** The outer loop (index.js:99-118) over the objects `files`. */
  function AuditRows(acl: map<Id, PermissionsReply>, files: seq<Found>): (r: Outcome)
    ensures r.completed <==> forall j :: 0 <= j < |files| ==> FileRows(files[j], Grants(acl, files[j])).completed
    ensures forall row :: row in r.rows ==> row.inherited == "False"
    decreases |files|
  {
    if files == [] then Outcome([], true)
    else
      var o := AuditRows(acl, files[..|files| - 1]);
      assert forall j :: 0 <= j < |files| - 1 ==> files[..|files| - 1][j] == files[j];
      if !o.completed then o
      else
        var p := FileRows(files[|files| - 1], Grants(acl, files[|files| - 1]));
        Outcome(o.rows + p.rows, p.completed)
  }

  // ---- the reference description

  /** The rows for the direct grants among `gs`, in record order. */
  function DirectRows(x: Found, gs: seq<Permission>): seq<ReportRow> {
    if gs == [] then []
    else
      var g := gs[|gs| - 1];
      DirectRows(x, gs[..|gs| - 1]) + (if IsDirect(g) then [RowFor(x.fullPath, x.file.id, g, false)] else [])
  }

  /** The position of the first raising record, `|gs|` when there is none. */
  function FirstBreak(gs: seq<Permission>): (k: nat)
    ensures k <= |gs|
    ensures forall j :: 0 <= j < k ==> !Breaks(gs[j])
    ensures k < |gs| ==> Breaks(gs[k])
    decreases |gs|
  {
    if gs == [] then 0
    else
      var n := |gs| - 1;
      var k := FirstBreak(gs[..n]);
      assert forall j :: 0 <= j < n ==> gs[..n][j] == gs[j];
      if k < n || Breaks(gs[n]) then k else n + 1
  }

  /** The rows of the direct grants of all `files`, object after object. */
  function AllDirect(acl: map<Id, PermissionsReply>, files: seq<Found>): seq<ReportRow> {
    if files == [] then []
    else
      var x := files[|files| - 1];
      AllDirect(acl, files[..|files| - 1]) + DirectRows(x, Grants(acl, x))
  }

  predicate FileBreaks(acl: map<Id, PermissionsReply>, x: Found) {
    FirstBreak(Grants(acl, x)) < |Grants(acl, x)|
  }

  /** The position of the first object with a raising record. */
  function FirstBreakingFile(acl: map<Id, PermissionsReply>, files: seq<Found>): (k: nat)
    ensures k <= |files|
    ensures forall j :: 0 <= j < k ==> !FileBreaks(acl, files[j])
    ensures k < |files| ==> FileBreaks(acl, files[k])
    decreases |files|
  {
    if files == [] then 0
    else
      var n := |files| - 1;
      var k := FirstBreakingFile(acl, files[..n]);
      assert forall j :: 0 <= j < n ==> files[..n][j] == files[j];
      if k < n || FileBreaks(acl, files[n]) then k else n + 1
  }

  /** What the run writes: every direct grant of the objects before the
      first one with a raising record, then the direct grants of that object
      that come before the raising record. */
  function Expected(acl: map<Id, PermissionsReply>, files: seq<Found>): Outcome {
    var k := FirstBreakingFile(acl, files);
    if k == |files| then Outcome(AllDirect(acl, files), true)
    else
      var gs := Grants(acl, files[k]);
      Outcome(AllDirect(acl, files[..k]) + DirectRows(files[k], gs[..FirstBreak(gs)]), false)
  }

  // ---- the loops compute the reference description

  /** The record loop writes the direct grants up to the first raising
      record, and completes exactly when there is none. */
  lemma {:induction false} FileRowsSpec(x: Found, gs: seq<Permission>)
    ensures FileRows(x, gs) == Outcome(DirectRows(x, gs[..FirstBreak(gs)]), FirstBreak(gs) == |gs|)
    decreases |gs|
  {
    if gs == [] {
      assert gs[..0] == [];
    } else {
      var n := |gs| - 1;
      var pre := gs[..n];
      FileRowsSpec(x, pre);
      var k := FirstBreak(pre);
      if k < n {
        assert gs[..k] == pre[..k];
        assert FileRows(x, gs) == FileRows(x, pre);
      } else {
        assert pre[..k] == pre;
        if Breaks(gs[n]) {
          assert FileRows(x, gs) == Outcome(DirectRows(x, pre), false);
        } else {
          assert gs[..n + 1] == gs;
          assert DirectRows(x, gs) == DirectRows(x, pre) + (if IsDirect(gs[n]) then [RowFor(x.fullPath, x.file.id, gs[n], false)] else []);
          assert FileRows(x, gs) == Outcome(DirectRows(x, gs), true);
        }
      }
    }
  }

  lemma {:induction false} AllDirectPrefix(acl: map<Id, PermissionsReply>, files: seq<Found>, n: nat)
    requires n < |files|
    ensures AllDirect(acl, files[..n + 1]) == AllDirect(acl, files[..n]) + DirectRows(files[n], Grants(acl, files[n]))
  {
    var p := files[..n + 1];
    assert p[..n] == files[..n];
  }

  lemma {:induction false} AuditRowsSpecRunning(acl: map<Id, PermissionsReply>, files: seq<Found>)
    requires files != []
    requires var pre := files[..|files| - 1];
      FirstBreakingFile(acl, pre) == |pre| && AuditRows(acl, pre) == Expected(acl, pre)
    ensures AuditRows(acl, files) == Expected(acl, files)
  {
    var n := |files| - 1;
    var x := files[n];
    var gs := Grants(acl, x);
    FileRowsSpec(x, gs);
    AllDirectPrefix(acl, files, n);
    if !FileBreaks(acl, x) {
      assert files[..n + 1] == files;
      assert gs[..FirstBreak(gs)] == gs;
    }
  }

  /** The object loop writes what `Expected` describes. */
  lemma {:induction false} AuditRowsSpec(acl: map<Id, PermissionsReply>, files: seq<Found>)
    ensures AuditRows(acl, files) == Expected(acl, files)
    decreases |files|
  {
    if files != [] {
      var n := |files| - 1;
      var pre := files[..n];
      AuditRowsSpec(acl, pre);
      var k := FirstBreakingFile(acl, pre);
      if k < n {
        assert files[..k] == pre[..k];
        assert files[k] == pre[k];
      } else {
        AuditRowsSpecRunning(acl, files);
      }
    }
  }

  // ---- properties of the report

  lemma {:induction false} DirectRowsFrom(x: Found, gs: seq<Permission>, r: ReportRow)
    requires r in DirectRows(x, gs)
    ensures exists g :: g in gs && IsDirect(g) && r == RowFor(x.fullPath, x.file.id, g, false)
  {
    var n := |gs| - 1;
    var pre := gs[..n];
    if r in DirectRows(x, pre) {
      DirectRowsFrom(x, pre, r);
      var g :| g in pre && IsDirect(g) && r == RowFor(x.fullPath, x.file.id, g, false);
      assert g in gs;
    } else {
      assert gs[n] in gs;
    }
  }

  lemma {:induction false} AllDirectFrom(acl: map<Id, PermissionsReply>, files: seq<Found>, r: ReportRow)
    requires r in AllDirect(acl, files)
    ensures exists x, g :: x in files && g in Grants(acl, x) && IsDirect(g) && r == RowFor(x.fullPath, x.file.id, g, false)
  {
    var n := |files| - 1;
    var pre := files[..n];
    var x := files[n];
    if r in AllDirect(acl, pre) {
      AllDirectFrom(acl, pre, r);
      var y, g :| y in pre && g in Grants(acl, y) && IsDirect(g) && r == RowFor(y.fullPath, y.file.id, g, false);
      assert y in files;
    } else {
      DirectRowsFrom(x, Grants(acl, x), r);
      assert x in files;
    }
  }

  lemma PrefixIn<T>(s: seq<T>, k: nat, y: T)
    requires k <= |s| && y in s[..k]
    ensures y in s
  {
  }

  /** Every row written reports a direct grant of one of the objects: its
      first detail says it is not inherited, so its last cell is "False". */
  lemma RowsAreDirect(acl: map<Id, PermissionsReply>, files: seq<Found>, r: ReportRow)
    requires r in AuditRows(acl, files).rows
    ensures r.inherited == "False"
    ensures exists x, g :: x in files && g in Grants(acl, x) && IsDirect(g) && r == RowFor(x.fullPath, x.file.id, g, false)
  {
    AuditRowsSpec(acl, files);
    var k := FirstBreakingFile(acl, files);
    if k == |files| {
      AllDirectFrom(acl, files, r);
    } else {
      var gs := Grants(acl, files[k]);
      if r in AllDirect(acl, files[..k]) {
        AllDirectFrom(acl, files[..k], r);
        var x, g :| x in files[..k] && g in Grants(acl, x) && IsDirect(g) && r == RowFor(x.fullPath, x.file.id, g, false);
        PrefixIn(files, k, x);
      } else {
        DirectRowsFrom(files[k], gs[..FirstBreak(gs)], r);
        var g :| g in gs[..FirstBreak(gs)] && IsDirect(g) && r == RowFor(files[k].fullPath, files[k].file.id, g, false);
        PrefixIn(gs, FirstBreak(gs), g);
      }
    }
  }

  /** The run completes exactly when no record of any object raises, and
      then it reports every direct grant of every object. */
  lemma CompletedIff(acl: map<Id, PermissionsReply>, files: seq<Found>)
    ensures AuditRows(acl, files).completed <==> forall x, g :: x in files && g in Grants(acl, x) ==> !Breaks(g)
    ensures AuditRows(acl, files).completed ==> AuditRows(acl, files).rows == AllDirect(acl, files)
  {
    AuditRowsSpec(acl, files);
    var k := FirstBreakingFile(acl, files);
    if k < |files| {
      var gs := Grants(acl, files[k]);
      var j := FirstBreak(gs);
      assert files[k] in files && gs[j] in gs && Breaks(gs[j]);
    } else {
      forall x, g | x in files && g in Grants(acl, x) ensures !Breaks(g) {
        var i :| 0 <= i < |files| && files[i] == x;
        var gs := Grants(acl, x);
        var j :| 0 <= j < |gs| && gs[j] == g;
        assert !FileBreaks(acl, files[i]);
      }
    }
  }

  lemma {:induction false} DirectRowsHas(x: Found, gs: seq<Permission>, g: Permission)
    requires g in gs && IsDirect(g)
    ensures RowFor(x.fullPath, x.file.id, g, false) in DirectRows(x, gs)
  {
    var n := |gs| - 1;
    if g != gs[n] {
      assert g in gs[..n];
      DirectRowsHas(x, gs[..n], g);
    }
  }

  lemma {:induction false} AllDirectHas(acl: map<Id, PermissionsReply>, files: seq<Found>, x: Found, g: Permission)
    requires x in files && g in Grants(acl, x) && IsDirect(g)
    ensures RowFor(x.fullPath, x.file.id, g, false) in AllDirect(acl, files)
  {
    var n := |files| - 1;
    if x != files[n] {
      assert x in files[..n];
      AllDirectHas(acl, files[..n], x, g);
    } else {
      DirectRowsHas(x, Grants(acl, x), g);
    }
  }

  /** Conversely, a run that completes reports every direct grant of every
      object. */
  lemma DirectGrantsReported(acl: map<Id, PermissionsReply>, files: seq<Found>, x: Found, g: Permission)
    requires AuditRows(acl, files).completed
    requires x in files && g in Grants(acl, x) && IsDirect(g)
    ensures RowFor(x.fullPath, x.file.id, g, false) in AuditRows(acl, files).rows
  {
    CompletedIff(acl, files);
    AllDirectHas(acl, files, x, g);
  }

  /** The rows written before any point of the run are the start of the
      final report: a run that stops keeps what it wrote. */
  lemma {:induction false} RowsOnlyGrow(acl: map<Id, PermissionsReply>, files: seq<Found>, k: nat)
    requires k <= |files|
    ensures AuditRows(acl, files[..k]).rows <= AuditRows(acl, files).rows
    decreases |files| - k
  {
    if k < |files| {
      AuditRowsNext(acl, files, k);
      assert AuditRows(acl, files[..k]).rows <= AuditRows(acl, files[..k + 1]).rows;
      RowsOnlyGrow(acl, files, k + 1);
    } else {
      assert files[..k] == files;
    }
  }

  /** One more object at the end of the list: its rows follow the others',
      unless an earlier object's loop already raised. */
  lemma AuditRowsSnoc(acl: map<Id, PermissionsReply>, files: seq<Found>, y: Found)
    ensures AuditRows(acl, files + [y])
         == if AuditRows(acl, files).completed
            then Outcome(AuditRows(acl, files).rows + FileRows(y, Grants(acl, y)).rows, FileRows(y, Grants(acl, y)).completed)
            else AuditRows(acl, files)
  {
    var l := files + [y];
    assert l[..|l| - 1] == files;
  }

  /** An object whose permissions could not be fetched adds nothing to the
      report and does not stop the run. */
  lemma {:induction false} FetchFailureIsolated(acl: map<Id, PermissionsReply>, a: seq<Found>, x: Found, b: seq<Found>)
    requires x.file.id !in acl || acl[x.file.id].FetchFailed?
    ensures AuditRows(acl, a + [x] + b) == AuditRows(acl, a + b)
    decreases |b|
  {
    if b == [] {
      assert a + [x] + b == a + [x];
      assert a + b == a;
      AuditRowsSnoc(acl, a, x);
      assert Grants(acl, x) == [];
      assert FileRows(x, Grants(acl, x)) == Outcome([], true);
      assert AuditRows(acl, a).rows + [] == AuditRows(acl, a).rows;
    } else {
      var n := |b| - 1;
      FetchFailureIsolated(acl, a, x, b[..n]);
      assert a + [x] + b == (a + [x] + b[..n]) + [b[n]];
      assert a + b == (a + b[..n]) + [b[n]];
      AuditRowsSnoc(acl, a + [x] + b[..n], b[n]);
      AuditRowsSnoc(acl, a + b[..n], b[n]);
    }
  }

  /** The seed folders' own permissions are never audited: on a drive in
      which every object has one parent, no row names a seed folder. */
  lemma SeedsNotAudited(store: Store, rank: map<Id, nat>, f: Entry, r: ReportRow)
    requires Walkable(store, rank) && SingleParentDrive(store, rank)
    requires f in store.rootFolders.files
    requires r in AuditRows(store.acl, Walk(store, rank)).rows
    ensures r.fileId != f.id
  {
    RowNamesListed(store.acl, Walk(store, rank), r);
    WalkOnceWithoutSeeds(store, rank);
  }

  lemma RowNamesListed(acl: map<Id, PermissionsReply>, files: seq<Found>, r: ReportRow)
    requires r in AuditRows(acl, files).rows
    ensures exists x :: x in files && r.fileId == x.file.id
  {
    RowsAreDirect(acl, files, r);
    var x, g :| x in files && g in Grants(acl, x) && IsDirect(g) && r == RowFor(x.fullPath, x.file.id, g, false);
  }

  // ---- the loops

  /** The CSV lines of a sequence of rows. */
  function Lines(rows: seq<ReportRow>): (r: seq<seq<string>>)
    ensures |r| == |rows|
    ensures forall i :: 0 <= i < |rows| ==> r[i] == Cells(rows[i])
  {
    seq(|rows|, i requires 0 <= i < |rows| => Cells(rows[i]))
  }

  lemma LinesAppend(a: seq<ReportRow>, b: seq<ReportRow>)
    ensures Lines(a + b) == Lines(a) + Lines(b)
  {
  }

  /** One more record: a stopped run stays stopped, a running one takes
      the record's verdict. */
  lemma FileRowsNext(x: Found, gs: seq<Permission>, j: nat)
    requires j < |gs|
    ensures FileRows(x, gs[..j + 1]) ==
      var o := FileRows(x, gs[..j]);
      if !o.completed then o
      else match ReadInherited(gs[j])
        case IndexError => o.(completed := false)
        case Value(b) => if b then o else o.(rows := o.rows + [RowFor(x.fullPath, x.file.id, gs[j], b)])
  {
    assert gs[..j + 1][..j] == gs[..j];
  }

  lemma AuditRowsNext(acl: map<Id, PermissionsReply>, files: seq<Found>, i: nat)
    requires i < |files|
    ensures AuditRows(acl, files[..i + 1]) ==
      var o := AuditRows(acl, files[..i]);
      if !o.completed then o
      else
        var p := FileRows(files[i], Grants(acl, files[i]));
        Outcome(o.rows + p.rows, p.completed)
  {
    assert files[..i + 1][..i] == files[..i];
  }

  /** Once a record has raised, later records change nothing. */
  lemma {:induction false} FileRowsStuck(x: Found, gs: seq<Permission>, k: nat)
    requires k <= |gs| && !FileRows(x, gs[..k]).completed
    ensures FileRows(x, gs) == FileRows(x, gs[..k])
    decreases |gs| - k
  {
    if k < |gs| {
      FileRowsNext(x, gs, k);
      FileRowsStuck(x, gs, k + 1);
    } else {
      assert gs[..k] == gs;
    }
  }

  lemma {:induction false} AuditRowsStuck(acl: map<Id, PermissionsReply>, files: seq<Found>, k: nat)
    requires k <= |files| && !AuditRows(acl, files[..k]).completed
    ensures AuditRows(acl, files) == AuditRows(acl, files[..k])
    decreases |files| - k
  {
    if k < |files| {
      AuditRowsNext(acl, files, k);
      AuditRowsStuck(acl, files, k + 1);
    } else {
      assert files[..k] == files;
    }
  }

  /** The record loop for one object (index.js:100-118): write a row for
      every record read as not inherited; stop at the first record whose
      `permissionDetails` is an empty list, as the IndexError does. */
  method AuditFile(acl: map<Id, PermissionsReply>, file: Found, lines0: seq<seq<string>>)
    returns (lines: seq<seq<string>>, completed: bool)
    ensures lines == lines0 + Lines(FileRows(file, Grants(acl, file)).rows)
    ensures completed == FileRows(file, Grants(acl, file)).completed
  {
    var fileId := file.file.id;
    var fileName := file.fullPath;
    var permissions := GetPermissions(acl, fileId);
    lines, completed := lines0, true;
    var j := 0;
    while j < |permissions|
      invariant j <= |permissions| && completed
      invariant FileRows(file, permissions[..j]).completed
      invariant lines == lines0 + Lines(FileRows(file, permissions[..j]).rows)
    {
      var perm := permissions[j];
      ghost var before := FileRows(file, permissions[..j]);
      FileRowsNext(file, permissions, j);
      var details := perm.permissionDetails.GetOr([PermissionDetail(None)]);
      if details == [] {
        completed := false;
        FileRowsStuck(file, permissions, j + 1);
        break;
      }
      var inherited := details[0].inherited.GetOr(true);
      if !inherited {
        var email := perm.emailAddress.GetOr(perm.displayName.GetOr("N/A"));
        lines := lines + [[fileName, fileId, email, perm.granteeType.GetOr(""), perm.role.GetOr(""), PyStr(inherited)]];
        LinesAppend(before.rows, [RowFor(fileName, fileId, perm, inherited)]);
      }
      j := j + 1;
    }
    if completed {
      assert permissions[..j] == permissions;
    }
  }

  /** One object of the outer loop, in terms of the lines written. */
  lemma AuditLinesNext(acl: map<Id, PermissionsReply>, files: seq<Found>, i: nat, head: seq<seq<string>>)
    requires i < |files| && AuditRows(acl, files[..i]).completed
    ensures var p := FileRows(files[i], Grants(acl, files[i]));
      && (head + Lines(AuditRows(acl, files[..i]).rows)) + Lines(p.rows) == head + Lines(AuditRows(acl, files[..i + 1]).rows)
      && AuditRows(acl, files[..i + 1]).completed == p.completed
  {
    var p := FileRows(files[i], Grants(acl, files[i]));
    var o := AuditRows(acl, files[..i]);
    AuditRowsNext(acl, files, i);
    LinesAppend(o.rows, p.rows);
    ConcatAssoc(head, Lines(o.rows), Lines(p.rows));
  }

  /** The loop of `audit_drive` (index.js:99-118) over the objects the walk
      returned, after the header line. */
  method AuditFiles(acl: map<Id, PermissionsReply>, allFiles: seq<Found>) returns (lines: seq<seq<string>>, completed: bool)
    ensures lines == [HEADER] + Lines(AuditRows(acl, allFiles).rows)
    ensures completed == AuditRows(acl, allFiles).completed
  {
    lines, completed := [HEADER], true;
    var i := 0;
    while i < |allFiles|
      invariant i <= |allFiles| && completed
      invariant AuditRows(acl, allFiles[..i]).completed
      invariant lines == [HEADER] + Lines(AuditRows(acl, allFiles[..i]).rows)
    {
      var file := allFiles[i];
      AuditLinesNext(acl, allFiles, i, [HEADER]);
      var fileCompleted;
      lines, fileCompleted := AuditFile(acl, file, lines);
      if !fileCompleted {
        completed := false;
        AuditRowsStuck(acl, allFiles, i + 1);
        break;
      }
      i := i + 1;
    }
    if completed {
      assert allFiles[..i] == allFiles;
    }
  }

  /** `audit_drive` (index.js:91-120): the header, then the rows of every
      object the walk returns, in walk order; `completed` is false when a
      record raised and the run stopped. */
  method AuditDrive(store: Store, ghost rank: map<Id, nat>) returns (lines: seq<seq<string>>, completed: bool)
    requires Walkable(store, rank)
    ensures lines == [HEADER] + Lines(AuditRows(store.acl, Walk(store, rank)).rows)
    ensures completed == AuditRows(store.acl, Walk(store, rank)).completed
  {
    var allFiles := ListDriveFiles(store, rank);
    lines, completed := AuditFiles(store.acl, allFiles);
  }
}
