/** Small drives worked out step by step: what the walk lists and what the
    audit writes for them. */
module Scenarios {
  import opened DriveStore
  import opened TreeWalker
  import opened Permissions
  import opened Audit
  import opened Paths

  const PDF := "application/pdf"
  const Q1 := Entry("q1", "Q1.pdf", PDF)
  const ARCHIVE := Entry("arc", "Archive", FOLDER_MIME_TYPE)
  const OLD := Entry("old", "old.txt", "text/plain")
  const REPORTS := Entry("rep", "Reports", FOLDER_MIME_TYPE)

  /** A shared drive with the folder Reports at its top; Reports holds Q1.pdf
      and the folder Archive over two pages, and Archive holds old.txt. The
      permission records are `ACL`'s. */
  const DRIVE := Store(
    Page([REPORTS], None),
    map["rep" := [Page([Q1], Some("t1")), Page([ARCHIVE], None)], "arc" := [Page([OLD], None)]],
    ACL)

  const DRIVE_RANK: map<Id, nat> := map["rep" := 2, "arc" := 1]

  lemma ReportsChildren()
    ensures Children(DRIVE, "rep") == [Q1, ARCHIVE]
  {
    var pages := [Page([Q1], Some("t1")), Page([ARCHIVE], None)];
    assert Pages(DRIVE, "rep") == pages;
    assert pages[1..] == [Page([ARCHIVE], None)];
    assert Listed(pages[1..]) == [ARCHIVE];
  }

  lemma ArchiveChildren()
    ensures Children(DRIVE, "arc") == [OLD]
  {
    assert Pages(DRIVE, "arc") == [Page([OLD], None)];
  }

  /** Reports holds one folder, Archive none. */
  lemma ChildFolders(f: Id)
    requires f in DRIVE_RANK
    ensures FolderIds(Children(DRIVE, f)) == if f == "rep" then ["arc"] else []
  {
    if f == "rep" {
      ReportsChildren();
      assert FolderIds([Q1, ARCHIVE]) == ["arc"];
    } else {
      ArchiveChildren();
      assert FolderIds([OLD]) == [];
    }
  }

  lemma DriveIsWalkable()
    ensures Walkable(DRIVE, DRIVE_RANK)
  {
    forall f, x | f in DRIVE_RANK && x in FolderIds(Children(DRIVE, f))
      ensures x in DRIVE_RANK && DRIVE_RANK[x] < DRIVE_RANK[f]
    {
      ChildFolders(f);
    }
  }

  const ST0 := WalkState(["rep"], map["rep" := "Reports"], [])
  const ST1 := WalkState(["arc"], map["rep" := "Reports", "arc" := "Reports/Archive"],
    [Found(Q1, "Reports/Q1.pdf"), Found(ARCHIVE, "Reports/Archive")])

  lemma SeedStep()
    ensures Seed(DRIVE.rootFolders.files) == ST0
  {
    assert DRIVE.rootFolders.files[..0] == [];
  }

  const ST_A := WalkState([], map["rep" := "Reports"], [Found(Q1, "Reports/Q1.pdf")])

  lemma StepQ1()
    ensures Step(ST0.(folderStack := []), "Reports", Q1) == ST_A
  {
    JoinPlain("Reports", "Q1.pdf");
    assert "Reports" + "/" + "Q1.pdf" == "Reports/Q1.pdf";
  }

  lemma StepArchive()
    ensures Step(ST_A, "Reports", ARCHIVE) == ST1
  {
    JoinPlain("Reports", "Archive");
    assert "Reports" + "/" + "Archive" == "Reports/Archive";
  }

  lemma VisitReports()
    ensures Visit(ST0.(folderStack := []), "Reports", [Q1, ARCHIVE]) == ST1
  {
    var st := ST0.(folderStack := []);
    var kids := [Q1, ARCHIVE];
    assert kids[..1] == [Q1];
    assert [Q1][..0] == [];
    StepQ1();
    StepArchive();
    assert Visit(st, "Reports", [Q1]) == ST_A;
  }

  lemma FirstStep()
    ensures Resolvable(ST0) && PopAndExpand(DRIVE, ST0) == ST1
  {
    ReportsChildren();
    VisitReports();
    assert ST0.folderStack[..0] == [];
  }

  lemma StepOld()
    ensures Step(ST1.(folderStack := []), "Reports/Archive", OLD)
      == ST1.(folderStack := [], allFiles := ST1.allFiles + [Found(OLD, "Reports/Archive/old.txt")])
  {
    JoinPlain("Reports/Archive", "old.txt");
    assert "Reports/Archive" + "/" + "old.txt" == "Reports/Archive/old.txt";
  }

  lemma SecondStep()
    ensures Resolvable(ST1) && PopAndExpand(DRIVE, ST1)
      == ST1.(folderStack := [], allFiles := ST1.allFiles + [Found(OLD, "Reports/Archive/old.txt")])
  {
    ArchiveChildren();
    StepOld();
    assert [OLD][..0] == [];
    assert ST1.folderStack[..0] == [];
  }

  const WALKED := [Found(Q1, "Reports/Q1.pdf"), Found(ARCHIVE, "Reports/Archive"), Found(OLD, "Reports/Archive/old.txt")]
  const ST2 := ST1.(folderStack := [], allFiles := WALKED)

  lemma DrainFromSecond()
    ensures Ranked(DRIVE, DRIVE_RANK) && InRank(DRIVE_RANK, ST1.folderStack) && Resolvable(ST1)
    ensures Drain(DRIVE, DRIVE_RANK, ST1) == ST2
  {
    DriveIsWalkable();
    SecondStep();
    assert ST1.allFiles + [Found(OLD, "Reports/Archive/old.txt")] == WALKED;
  }

  /** Both pages of Reports are read, Archive is walked after Reports, and
      every path starts at the top folder's name. */
  lemma DriveWalk()
    ensures Walkable(DRIVE, DRIVE_RANK)
    ensures Walk(DRIVE, DRIVE_RANK) == WALKED
  {
    DriveIsWalkable();
    SeedStep();
    FirstStep();
    DrainFromSecond();
    assert InRank(DRIVE_RANK, ST0.folderStack);
  }

  const ALICE := Permission(Some("user"), Some("alice@example.com"), Some("reader"), Some("Alice"),
    Some([PermissionDetail(Some(false))]))
  const BOB := Permission(Some("user"), Some("bob@example.com"), Some("writer"), None,
    Some([PermissionDetail(Some(true))]))
  const EVERYONE := Permission(Some("domain"), None, Some("reader"), Some("example.com"), None)
  const BROKEN := Permission(Some("group"), Some("team@example.com"), Some("writer"), None, Some([]))

  const ALICE_ROW := ReportRow("Reports/Q1.pdf", "q1", "alice@example.com", "user", "reader", "False")

  /** Q1.pdf grants Alice directly and Bob by inheritance; the domain grant
      has no details, so it reads as inherited; Archive's records could not
      be fetched. Only Alice's grant is reported. */
  const ACL := map["q1" := Fetched(Some([ALICE, BOB, EVERYONE])), "arc" := FetchFailed]

  lemma Q1Rows()
    ensures FileRows(WALKED[0], [ALICE, BOB, EVERYONE]) == Outcome([ALICE_ROW], true)
  {
    var x := WALKED[0];
    var gs := [ALICE, BOB, EVERYONE];
    assert RowFor("Reports/Q1.pdf", "q1", ALICE, false) == ALICE_ROW;
    assert [ALICE][..0] == [];
    assert FileRows(x, [ALICE]) == Outcome([ALICE_ROW], true);
    assert [ALICE, BOB][..1] == [ALICE];
    assert FileRows(x, [ALICE, BOB]) == Outcome([ALICE_ROW], true);
    assert gs[..2] == [ALICE, BOB];
  }

  lemma DriveAuditRows()
    ensures AuditRows(ACL, WALKED) == Outcome([ALICE_ROW], true)
  {
    Q1Rows();
    assert Grants(ACL, WALKED[0]) == [ALICE, BOB, EVERYONE];
    assert Grants(ACL, WALKED[1]) == [];
    assert Grants(ACL, WALKED[2]) == [];
    assert [WALKED[0]][..0] == [];
    assert AuditRows(ACL, [WALKED[0]]) == Outcome([ALICE_ROW], true);
    assert WALKED[..2][..1] == [WALKED[0]];
    assert AuditRows(ACL, WALKED[..2]) == Outcome([ALICE_ROW], true);
    assert WALKED[..2] == WALKED[..3][..2];
    assert WALKED[..3] == WALKED;
  }

  /** The whole run on the example drive: the header and Alice's row. */
  lemma DriveAudit()
    ensures Walkable(DRIVE, DRIVE_RANK)
    ensures [HEADER] + Lines(AuditRows(DRIVE.acl, Walk(DRIVE, DRIVE_RANK)).rows)
      == [HEADER, ["Reports/Q1.pdf", "q1", "alice@example.com", "user", "reader", "False"]]
  {
    DriveWalk();
    DriveAuditRows();
  }

  const CAROL := Permission(Some("user"), Some("carol@example.com"), Some("owner"), None,
    Some([PermissionDetail(Some(false))]))

  /** Q1.pdf's second record has an empty details list; old.txt grants Carol
      directly. */
  const BROKEN_ACL := map["q1" := Fetched(Some([ALICE, BROKEN])), "old" := Fetched(Some([CAROL]))]

  /** The run stops inside Q1.pdf: Alice's row, written before the raising
      record, is kept, and Carol's grant on the later old.txt is never
      reported. */
  lemma BrokenAuditRows()
    ensures AuditRows(BROKEN_ACL, WALKED) == Outcome([ALICE_ROW], false)
  {
    var x := WALKED[0];
    assert Grants(BROKEN_ACL, x) == [ALICE, BROKEN];
    assert RowFor("Reports/Q1.pdf", "q1", ALICE, false) == ALICE_ROW;
    assert [ALICE][..0] == [];
    assert FileRows(x, [ALICE]) == Outcome([ALICE_ROW], true);
    assert [ALICE, BROKEN][..1] == [ALICE];
    assert FileRows(x, [ALICE, BROKEN]) == Outcome([ALICE_ROW], false);
    assert [x][..0] == [];
    assert WALKED[..1] == [x];
    assert AuditRows(BROKEN_ACL, WALKED[..1]) == Outcome([ALICE_ROW], false);
    AuditRowsStuck(BROKEN_ACL, WALKED, 1);
  }
}
