/** What is and is not in the walk's result. The reference traversal
    `Unfold` is characterised by three facts: it records every child of
    every pending folder, it is closed under expanding the folders it
    records, and it records nothing else. On a store without repeated
    objects `Walk` is `Unfold` below the seed folders, so the same three
    facts describe the `all_files` list `list_drive_files` returns. */
module WalkProperties {
  import opened DriveStore
  import opened Paths
  import opened TreeWalker
  import opened WalkerProofs

  /** `y` is a child of the folder `parentId`, listed under `parentPath`. */
  predicate IsChildAt(store: Store, parentId: Id, parentPath: string, y: Found) {
    y.file in Children(store, parentId) && y.fullPath == Join(parentPath, y.file.name)
  }

  /** The measure `Unfold` recurses on: the pushed folders rank lower than
      the popped one, and the rest of the stack is no higher. */
  lemma UnfoldMeasure(store: Store, rank: map<Id, nat>, s: seq<Pending>)
    requires Ranked(store, rank) && InRank(rank, PendingIds(s)) && s != []
    ensures var n := |s| - 1;
      var pushed := Pushed(Children(store, s[n].id), s[n].path);
      && InRank(rank, PendingIds(pushed)) && InRank(rank, PendingIds(s[..n]))
      && (pushed == [] || MaxRank(rank, PendingIds(pushed)) < MaxRank(rank, PendingIds(s)))
      && MaxRank(rank, PendingIds(s[..n])) <= MaxRank(rank, PendingIds(s))
  {
    var n := |s| - 1;
    var kids := Children(store, s[n].id);
    assert s[n].id in PendingIds(s);
    CountPop(store, rank, PendingIds(s));
    PendingIdsPrefix(s, n);
    MaxRankBelow(rank, FolderIds(kids), rank[s[n].id]);
    MaxRankPrefix(rank, PendingIds(s), n);
  }

  lemma {:induction false} PushedHas(kids: seq<Entry>, p: string, e: Entry)
    requires e in kids && IsFolder(e)
    ensures Pending(e.id, Join(p, e.name)) in Pushed(kids, p)
  {
    var n := |kids| - 1;
    var pre := kids[..n];
    var last := if IsFolder(kids[n]) then [Pending(kids[n].id, Join(p, kids[n].name))] else [];
    assert Pushed(kids, p) == Pushed(pre, p) + last;
    if e != kids[n] {
      assert kids == pre + [kids[n]];
      PushedHas(pre, p, e);
    }
  }

  lemma {:induction false} PushedFrom(kids: seq<Entry>, p: string, q: Pending)
    requires q in Pushed(kids, p)
    ensures exists e :: e in kids && IsFolder(e) && q == Pending(e.id, Join(p, e.name))
  {
    var n := |kids| - 1;
    var pre := kids[..n];
    var last := if IsFolder(kids[n]) then [Pending(kids[n].id, Join(p, kids[n].name))] else [];
    assert Pushed(kids, p) == Pushed(pre, p) + last;
    if q in Pushed(pre, p) {
      PushedFrom(pre, p, q);
      var e :| e in pre && IsFolder(e) && q == Pending(e.id, Join(p, e.name));
      assert e in kids;
    } else {
      assert q in last;
      assert kids[n] in kids;
    }
  }

  lemma RecordHas(kids: seq<Entry>, p: string, e: Entry)
    requires e in kids
    ensures Found(e, Join(p, e.name)) in Record(kids, p)
  {
    var i :| 0 <= i < |kids| && kids[i] == e;
    assert Record(kids, p)[i] == Found(e, Join(p, e.name));
  }

  lemma RecordFrom(kids: seq<Entry>, p: string, y: Found)
    requires y in Record(kids, p)
    ensures y.file in kids && y.fullPath == Join(p, y.file.name)
  {
    var i :| 0 <= i < |Record(kids, p)| && Record(kids, p)[i] == y;
    assert y == Found(kids[i], Join(p, kids[i].name));
  }

  lemma InConcat3<T>(y: T, a: seq<T>, b: seq<T>, c: seq<T>)
    ensures y in (a + b) + c <==> y in a || y in b || y in c
  {
  }

  /** Every child of every pending folder is recorded, with its path joined
      onto the folder's. */
  lemma {:induction false} UnfoldRecordsChildren(store: Store, rank: map<Id, nat>, s: seq<Pending>, q: Pending, e: Entry)
    requires Ranked(store, rank) && InRank(rank, PendingIds(s))
    requires q in s && e in Children(store, q.id)
    ensures Found(e, Join(q.path, e.name)) in Unfold(store, rank, s)
    decreases |s|
  {
    var n := |s| - 1;
    var top := s[n];
    var kids := Children(store, top.id);
    var pushed := Pushed(kids, top.path);
    UnfoldStep(store, rank, s);
    var y := Found(e, Join(q.path, e.name));
    InConcat3(y, Record(kids, top.path), Unfold(store, rank, pushed), Unfold(store, rank, s[..n]));
    if q == top {
      RecordHas(kids, top.path, e);
    } else {
      DropLastSplit(s);
      assert q in s[..n] + [top];
      UnfoldRecordsChildren(store, rank, s[..n], q, e);
    }
  }

  /** The traversal is closed: the children of every recorded folder are
      recorded too, under the folder's recorded path. */
  lemma {:induction false} UnfoldClosed(store: Store, rank: map<Id, nat>, s: seq<Pending>, x: Found, e: Entry)
    requires Ranked(store, rank) && InRank(rank, PendingIds(s))
    requires x in Unfold(store, rank, s) && IsFolder(x.file) && e in Children(store, x.file.id)
    ensures Found(e, Join(x.fullPath, e.name)) in Unfold(store, rank, s)
    decreases MaxRank(rank, PendingIds(s)), |s|
  {
    var n := |s| - 1;
    var top := s[n];
    var kids := Children(store, top.id);
    var pushed := Pushed(kids, top.path);
    UnfoldStep(store, rank, s);
    UnfoldMeasure(store, rank, s);
    var u1 := Unfold(store, rank, pushed);
    var u2 := Unfold(store, rank, s[..n]);
    var y := Found(e, Join(x.fullPath, e.name));
    InConcat3(x, Record(kids, top.path), u1, u2);
    InConcat3(y, Record(kids, top.path), u1, u2);
    if x in Record(kids, top.path) {
      RecordFrom(kids, top.path, x);
      PushedHas(kids, top.path, x.file);
      UnfoldRecordsChildren(store, rank, pushed, Pending(x.file.id, x.fullPath), e);
    } else if x in u1 {
      UnfoldClosed(store, rank, pushed, x, e);
    } else {
      UnfoldClosed(store, rank, s[..n], x, e);
    }
  }

  /** Nothing else is recorded: every recorded object is a child of a
      pending folder or of a recorded folder, under that folder's path. */
  lemma {:induction false} UnfoldSound(store: Store, rank: map<Id, nat>, s: seq<Pending>, y: Found)
    requires Ranked(store, rank) && InRank(rank, PendingIds(s))
    requires y in Unfold(store, rank, s)
    ensures || (exists q :: q in s && IsChildAt(store, q.id, q.path, y))
            || (exists x :: x in Unfold(store, rank, s) && IsFolder(x.file) && IsChildAt(store, x.file.id, x.fullPath, y))
    decreases MaxRank(rank, PendingIds(s)), |s|
  {
    var n := |s| - 1;
    var top := s[n];
    var kids := Children(store, top.id);
    var pushed := Pushed(kids, top.path);
    UnfoldStep(store, rank, s);
    UnfoldMeasure(store, rank, s);
    var r := Record(kids, top.path);
    var u1 := Unfold(store, rank, pushed);
    var u2 := Unfold(store, rank, s[..n]);
    InConcat3(y, r, u1, u2);
    DropLastSplit(s);
    if y in r {
      RecordFrom(kids, top.path, y);
      assert top in s && IsChildAt(store, top.id, top.path, y);
    } else if y in u1 {
      UnfoldSound(store, rank, pushed, y);
      if q :| q in pushed && IsChildAt(store, q.id, q.path, y) {
        PushedFrom(kids, top.path, q);
        var f :| f in kids && IsFolder(f) && q == Pending(f.id, Join(top.path, f.name));
        RecordHas(kids, top.path, f);
        var x := Found(f, Join(top.path, f.name));
        InConcat3(x, r, u1, u2);
        assert x in Unfold(store, rank, s) && IsFolder(x.file) && IsChildAt(store, x.file.id, x.fullPath, y);
      } else {
        var x :| x in u1 && IsFolder(x.file) && IsChildAt(store, x.file.id, x.fullPath, y);
        InConcat3(x, r, u1, u2);
      }
    } else {
      UnfoldSound(store, rank, s[..n], y);
      if q :| q in s[..n] && IsChildAt(store, q.id, q.path, y) {
        assert q in s;
      } else {
        var x :| x in u2 && IsFolder(x.file) && IsChildAt(store, x.file.id, x.fullPath, y);
        InConcat3(x, r, u1, u2);
      }
    }
  }

  // ---- the walk itself

  lemma SeedPendingsHas(folders: seq<Entry>, f: Entry)
    requires f in folders
    ensures Pending(f.id, f.name) in SeedPendings(folders)
  {
    var i :| 0 <= i < |folders| && folders[i] == f;
    assert SeedPendings(folders)[i] == Pending(f.id, f.name);
  }

  lemma SeedPendingsFrom(folders: seq<Entry>, q: Pending)
    requires q in SeedPendings(folders)
    ensures exists f :: f in folders && q == Pending(f.id, f.name)
  {
    var i :| 0 <= i < |folders| && SeedPendings(folders)[i] == q;
    assert folders[i] in folders;
  }

  /** Below the seeds, `Walk` is the reference traversal. */
  lemma WalkIsExpected(store: Store, rank: map<Id, nat>)
    requires Walkable(store, rank) && SingleParentBelowSeeds(store, rank)
    ensures InRank(rank, PendingIds(SeedPendings(store.rootFolders.files)))
    ensures Walk(store, rank) == Unfold(store, rank, SeedPendings(store.rootFolders.files))
  {
    assert PendingIds(SeedPendings(store.rootFolders.files)) == EntryIds(store.rootFolders.files);
    WalkIsUnfold(store, rank);
  }

  /** Every child of a seed folder is in `all_files`, its path the folder's
      bare name joined with its own; for plain names that is `name/child`. */
  lemma WalkHasSeedChildren(store: Store, rank: map<Id, nat>, f: Entry, e: Entry)
    requires Walkable(store, rank) && SingleParentBelowSeeds(store, rank)
    requires f in store.rootFolders.files && e in Children(store, f.id)
    ensures Found(e, Join(f.name, e.name)) in Walk(store, rank)
    ensures IsPlain(f.name) && IsPlain(e.name) ==> Found(e, f.name + "/" + e.name) in Walk(store, rank)
  {
    var s := SeedPendings(store.rootFolders.files);
    WalkIsExpected(store, rank);
    SeedPendingsHas(store.rootFolders.files, f);
    UnfoldRecordsChildren(store, rank, s, Pending(f.id, f.name), e);
    if IsPlain(f.name) && IsPlain(e.name) {
      JoinPlain(f.name, e.name);
    }
  }

  /** Every child of a folder in `all_files` is in `all_files` too, under
      the folder's path: the walk descends through every folder it finds. */
  lemma WalkClosed(store: Store, rank: map<Id, nat>, x: Found, e: Entry)
    requires Walkable(store, rank) && SingleParentBelowSeeds(store, rank)
    requires x in Walk(store, rank) && IsFolder(x.file) && e in Children(store, x.file.id)
    ensures Found(e, Join(x.fullPath, e.name)) in Walk(store, rank)
  {
    WalkIsExpected(store, rank);
    UnfoldClosed(store, rank, SeedPendings(store.rootFolders.files), x, e);
  }

  /** Everything in `all_files` was listed under a seed folder or under a
      folder in `all_files`, and carries the path joined onto that folder's. */
  lemma WalkSound(store: Store, rank: map<Id, nat>, y: Found)
    requires Walkable(store, rank) && SingleParentBelowSeeds(store, rank)
    requires y in Walk(store, rank)
    ensures || (exists f :: f in store.rootFolders.files && IsChildAt(store, f.id, f.name, y))
            || (exists x :: x in Walk(store, rank) && IsFolder(x.file) && IsChildAt(store, x.file.id, x.fullPath, y))
  {
    var folders := store.rootFolders.files;
    var s := SeedPendings(folders);
    WalkIsExpected(store, rank);
    UnfoldSound(store, rank, s, y);
    if q :| q in s && IsChildAt(store, q.id, q.path, y) {
      SeedPendingsFrom(folders, q);
      var f :| f in folders && q == Pending(f.id, f.name);
      assert IsChildAt(store, f.id, f.name, y);
    }
  }

  lemma EntryIdsHas(es: seq<Entry>, e: Entry)
    requires e in es
    ensures e.id in EntryIds(es)
  {
    var i :| 0 <= i < |es| && es[i] == e;
    assert EntryIds(es)[i] == e.id;
  }

  lemma FoundIdsHas(fs: seq<Found>, y: Found)
    requires y in fs
    ensures y.file.id in FoundIds(fs)
  {
    var i :| 0 <= i < |fs| && fs[i] == y;
    assert FoundIds(fs)[i] == y.file.id;
  }
}
