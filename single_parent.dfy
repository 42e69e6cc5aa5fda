/** Drives on which every object has one parent. There, `list_drive_files`
    reaches no object twice: the top-level folders are distinct and listed
    under no folder, each folder lists an object at most once, and no object
    is listed under two folders. `SeedsAreUnique` derives from these facts
    about the store the hypothesis `SingleParentBelowSeeds` that the
    equivalence of the walk with the reference traversal rests on, and
    `WalkOnceWithoutSeeds` then says that `all_files` holds each object once
    and no top-level folder. */
module SingleParent {
  import opened DriveStore
  import opened TreeWalker
  import opened WalkerProofs
  import opened WalkProperties

  /** The ids of the objects listed in folder `f`. */
  function ChildIds(store: Store, f: Id): seq<Id> {
    EntryIds(Children(store, f))
  }

  /** Every object of the drive has at most one parent. */
  ghost predicate SingleParentDrive(store: Store, rank: map<Id, nat>) {
    && NoDup(EntryIds(store.rootFolders.files))
    && (forall f :: f in rank ==> NoDup(ChildIds(store, f)))
    && (forall f, g, x :: f in rank && g in rank && x in ChildIds(store, f) && x in ChildIds(store, g) ==> f == g)
    && (forall f, x :: f in rank && x in ChildIds(store, f) ==> x !in EntryIds(store.rootFolders.files))
  }

  /** `g` is a folder the reference traversal of `s` expands: a pending one,
      or a folder it records. */
  ghost predicate Expands(store: Store, rank: map<Id, nat>, s: seq<Pending>, g: Id)
    requires Ranked(store, rank) && InRank(rank, PendingIds(s))
  {
    g in PendingIds(s) || exists z :: z in Unfold(store, rank, s) && IsFolder(z.file) && z.file.id == g
  }

  predicate RankedBelow(rank: map<Id, nat>, ids: seq<Id>, bound: nat) {
    forall x :: x in ids ==> x in rank && rank[x] < bound
  }

  /** Every folder that lists one of `ids` ranks at least `bound`. */
  predicate ParentsFrom(store: Store, rank: map<Id, nat>, ids: seq<Id>, bound: nat) {
    forall x, g :: x in ids && g in rank && x in ChildIds(store, g) ==> rank[g] >= bound
  }

  lemma RankedBelowSub(rank: map<Id, nat>, big: seq<Id>, small: seq<Id>, bound: nat)
    requires RankedBelow(rank, big, bound) && forall x :: x in small ==> x in big
    ensures RankedBelow(rank, small, bound)
  {
  }

  lemma ParentsFromSub(store: Store, rank: map<Id, nat>, big: seq<Id>, small: seq<Id>, bound: nat)
    requires ParentsFrom(store, rank, big, bound) && forall x :: x in small ==> x in big
    ensures ParentsFrom(store, rank, small, bound)
  {
  }

  // ---- small facts about the projections

  lemma {:induction false} FolderIdsHas(kids: seq<Entry>, e: Entry)
    requires e in kids && IsFolder(e)
    ensures e.id in FolderIds(kids)
  {
    var n := |kids| - 1;
    if e != kids[n] {
      assert kids == kids[..n] + [kids[n]];
      FolderIdsHas(kids[..n], e);
    }
  }

  lemma FolderIdsIn(kids: seq<Entry>, x: Id)
    requires x in FolderIds(kids)
    ensures x in EntryIds(kids)
  {
    FolderIdsSubset(kids);
    assert multiset(FolderIds(kids))[x] > 0;
  }

  lemma PendingIdsHas(s: seq<Pending>, q: Pending)
    requires q in s
    ensures q.id in PendingIds(s)
  {
    var i :| 0 <= i < |s| && s[i] == q;
    assert PendingIds(s)[i] == q.id;
  }

  lemma NoDupJoin<T>(a: seq<T>, b: seq<T>)
    requires NoDup(a) && NoDup(b)
    requires forall x :: x in a ==> x !in b
    ensures NoDup(a + b)
  {
    forall i, j | 0 <= i < j < |a + b| ensures (a + b)[i] != (a + b)[j] {
      if j < |a| {
        assert (a + b)[i] == a[i] && (a + b)[j] == a[j];
      } else if i >= |a| {
        assert (a + b)[i] == b[i - |a|] && (a + b)[j] == b[j - |a|];
      } else {
        assert (a + b)[i] == a[i] && (a + b)[j] == b[j - |a|];
        assert a[i] in a && b[j - |a|] in b;
      }
    }
  }

  /** The pairwise separations of the five parts of a traversal step, in
      the shape `NoDupJoin` takes them. */
  lemma ApartJoined<T>(a: seq<T>, t: T, k: seq<T>, d1: seq<T>, d2: seq<T>)
    requires forall x :: x in k ==> x !in a && x != t && x !in d1 && x !in d2
    requires forall x :: x in d1 ==> x !in a && x != t && x !in d2
    requires t !in d2 && forall x :: x in a ==> x !in d2
    ensures forall x :: x in k + d1 ==> x !in d2
    ensures forall x :: x in a + [t] ==> x !in (k + d1) + d2
  {
  }

  // ---- where the traversal's objects come from

  /** Every folder the traversal records ranks below the bound of the
      pending folders. */
  lemma {:induction false} FoldersBelow(store: Store, rank: map<Id, nat>, s: seq<Pending>, bound: nat)
    requires Ranked(store, rank) && InRank(rank, PendingIds(s)) && RankedBelow(rank, PendingIds(s), bound)
    ensures forall z :: z in Unfold(store, rank, s) && IsFolder(z.file) ==> z.file.id in rank && rank[z.file.id] < bound
    decreases MaxRank(rank, PendingIds(s)), |s|
  {
    if s != [] {
      var n := |s| - 1;
      var top := s[n];
      var kids := Children(store, top.id);
      var pushed := Pushed(kids, top.path);
      UnfoldStep(store, rank, s);
      UnfoldMeasure(store, rank, s);
      PendingIdsPrefix(s, n);
      assert PendingIds(s)[n] == top.id;
      FoldersBelow(store, rank, pushed, rank[top.id]);
      FoldersBelow(store, rank, s[..n], bound);
      forall z | z in Unfold(store, rank, s) && IsFolder(z.file)
        ensures z.file.id in rank && rank[z.file.id] < bound
      {
        InConcat3(z, Record(kids, top.path), Unfold(store, rank, pushed), Unfold(store, rank, s[..n]));
        if z in Record(kids, top.path) {
          RecordFrom(kids, top.path, z);
          FolderIdsHas(kids, z.file);
        }
      }
    }
  }

  /** Every object the traversal records is listed in a folder it expands,
      and every folder it expands ranks below the bound. */
  lemma Origins(store: Store, rank: map<Id, nat>, s: seq<Pending>, bound: nat)
    requires Ranked(store, rank) && InRank(rank, PendingIds(s)) && RankedBelow(rank, PendingIds(s), bound)
    ensures forall g :: Expands(store, rank, s, g) ==> g in rank && rank[g] < bound
    ensures forall y :: y in Unfold(store, rank, s) ==>
      exists g :: Expands(store, rank, s, g) && y.file in Children(store, g) && y.file.id in ChildIds(store, g)
    ensures forall x :: x in FoundIds(Unfold(store, rank, s)) ==>
      exists g :: Expands(store, rank, s, g) && x in ChildIds(store, g)
  {
    var u := Unfold(store, rank, s);
    FoldersBelow(store, rank, s, bound);
    forall y | y in u
      ensures exists g :: Expands(store, rank, s, g) && y.file in Children(store, g) && y.file.id in ChildIds(store, g)
    {
      UnfoldSound(store, rank, s, y);
      if q :| q in s && IsChildAt(store, q.id, q.path, y) {
        PendingIdsHas(s, q);
        EntryIdsHas(Children(store, q.id), y.file);
        assert Expands(store, rank, s, q.id);
      } else {
        var x :| x in u && IsFolder(x.file) && IsChildAt(store, x.file.id, x.fullPath, y);
        EntryIdsHas(Children(store, x.file.id), y.file);
        assert Expands(store, rank, s, x.file.id);
      }
    }
    forall x | x in FoundIds(u) ensures exists g :: Expands(store, rank, s, g) && x in ChildIds(store, g) {
      var i :| 0 <= i < |u| && FoundIds(u)[i] == x;
      assert u[i] in u;
    }
  }

  // ---- the subtree of the top folder and the rest of the stack are apart

  /** An object listed in a folder `p` the traversal of `s` does not expand
      is not recorded by it. */
  lemma NotBelow(store: Store, rank: map<Id, nat>, s: seq<Pending>, bound: nat, p: Id, x: Id)
    requires Ranked(store, rank) && SingleParentDrive(store, rank)
    requires InRank(rank, PendingIds(s)) && RankedBelow(rank, PendingIds(s), bound)
    requires p in rank && x in ChildIds(store, p) && !Expands(store, rank, s, p)
    ensures forall z :: z in Unfold(store, rank, s) ==> z.file.id != x
    ensures x !in FoundIds(Unfold(store, rank, s))
  {
    var u := Unfold(store, rank, s);
    Origins(store, rank, s, bound);
    forall i | 0 <= i < |u| ensures FoundIds(u)[i] != x {
      assert u[i] in u;
    }
  }

  /** An object listed in a folder `p` that ranks below `bound` and is not
      expanded below the rest of the stack is not expanded there either. */
  lemma ListedOutsideRest(store: Store, rank: map<Id, nat>, rest: seq<Pending>, bound: nat, p: Id, g: Id)
    requires Ranked(store, rank) && SingleParentDrive(store, rank)
    requires InRank(rank, PendingIds(rest)) && RankedBelow(rank, PendingIds(rest), bound)
    requires ParentsFrom(store, rank, PendingIds(rest), bound)
    requires p in rank && rank[p] < bound && g in ChildIds(store, p) && !Expands(store, rank, rest, p)
    ensures !Expands(store, rank, rest, g)
  {
    NotBelow(store, rank, rest, bound, p, g);
  }

  /** A folder expanded below the top folder `top` is not expanded below
      the rest of the stack: following its parents upwards reaches `top`
      or a folder below it, and by the single parent those are never
      reached from the rest. */
  lemma SeparateExpansions(store: Store, rank: map<Id, nat>, rest: seq<Pending>, top: Pending, bound: nat, g: Id)
    requires Ranked(store, rank) && SingleParentDrive(store, rank)
    requires InRank(rank, PendingIds(rest)) && RankedBelow(rank, PendingIds(rest), bound)
    requires ParentsFrom(store, rank, PendingIds(rest), bound)
    requires top.id in rank && rank[top.id] < bound
    requires InRank(rank, PendingIds(Pushed(Children(store, top.id), top.path)))
    requires !Expands(store, rank, rest, top.id)
    requires Expands(store, rank, Pushed(Children(store, top.id), top.path), g)
    requires g in rank && rank[g] < rank[top.id]
    ensures !Expands(store, rank, rest, g)
    decreases rank[top.id] - rank[g]
  {
    var t := top.id;
    var kids := Children(store, t);
    var pushed := Pushed(kids, top.path);
    assert RankedBelow(rank, PendingIds(pushed), rank[t]);
    Origins(store, rank, pushed, rank[t]);
    if g in PendingIds(pushed) {
      FolderIdsIn(kids, g);
      ListedOutsideRest(store, rank, rest, bound, t, g);
    } else {
      var z :| z in Unfold(store, rank, pushed) && IsFolder(z.file) && z.file.id == g;
      var p :| Expands(store, rank, pushed, p) && z.file in Children(store, p) && z.file.id in ChildIds(store, p);
      FolderIdsHas(Children(store, p), z.file);
      SeparateExpansions(store, rank, rest, top, bound, p);
      ListedOutsideRest(store, rank, rest, bound, p, g);
    }
  }

  /** Below the stack `rest + [top]`: the children of `top`, the objects
      recorded below its folder children, the rest of the stack and the
      objects recorded below it share no id. */
  lemma Apart(store: Store, rank: map<Id, nat>, rest: seq<Pending>, top: Pending, bound: nat)
    requires Ranked(store, rank) && SingleParentDrive(store, rank)
    requires InRank(rank, PendingIds(rest)) && top.id in rank
    requires RankedBelow(rank, PendingIds(rest) + [top.id], bound)
    requires ParentsFrom(store, rank, PendingIds(rest) + [top.id], bound)
    requires InRank(rank, PendingIds(Pushed(Children(store, top.id), top.path)))
    requires top.id !in PendingIds(rest)
    ensures var d1 := FoundIds(Unfold(store, rank, Pushed(Children(store, top.id), top.path)));
            var d2 := FoundIds(Unfold(store, rank, rest));
      && (forall x :: x in ChildIds(store, top.id) ==> x !in PendingIds(rest) && x != top.id && x !in d1 && x !in d2)
      && (forall x :: x in d1 ==> x !in PendingIds(rest) && x != top.id && x !in d2)
      && top.id !in d2
  {
    var t := top.id;
    var kids := Children(store, t);
    var pushed := Pushed(kids, top.path);
    var a := PendingIds(rest);
    var u2 := Unfold(store, rank, rest);
    var d1 := FoundIds(Unfold(store, rank, pushed));
    assert t in a + [t];
    assert forall x :: x in a ==> x in a + [t];
    assert RankedBelow(rank, PendingIds(pushed), rank[t]);
    RankedBelowSub(rank, a + [t], a, bound);
    ParentsFromSub(store, rank, a + [t], a, bound);
    Origins(store, rank, pushed, rank[t]);
    Origins(store, rank, rest, bound);
    assert t !in FoundIds(u2);
    forall z | z in u2 ensures z.file.id != t {
      FoundIdsHas(u2, z);
    }
    assert !Expands(store, rank, rest, t);
    forall x | x in ChildIds(store, t) ensures x !in a && x != t && x !in d1 && x !in FoundIds(u2) {
      NotBelow(store, rank, rest, bound, t, x);
    }
    forall x | x in d1 ensures x !in a && x != t && x !in FoundIds(u2) {
      var g :| Expands(store, rank, pushed, g) && x in ChildIds(store, g);
      SeparateExpansions(store, rank, rest, top, bound, g);
      NotBelow(store, rank, rest, bound, g, x);
    }
  }

  /** The folder children of a folder are distinct, rank below it, and are
      listed by no other folder. */
  lemma PushedReady(store: Store, rank: map<Id, nat>, top: Pending)
    requires Ranked(store, rank) && SingleParentDrive(store, rank) && top.id in rank
    ensures var f1 := PendingIds(Pushed(Children(store, top.id), top.path));
      && InRank(rank, f1) && NoDup(f1)
      && RankedBelow(rank, f1, rank[top.id]) && ParentsFrom(store, rank, f1, rank[top.id])
  {
    var kids := Children(store, top.id);
    var f1 := PendingIds(Pushed(kids, top.path));
    FolderIdsSubset(kids);
    NoDupSub(ChildIds(store, top.id), f1);
    forall x, g | x in f1 && g in rank && x in ChildIds(store, g) ensures rank[g] >= rank[top.id] {
      FolderIdsIn(kids, x);
    }
  }

  /** The conditions of `UniqueUnder` pass from a stack to the stack below
      its top, and the stack is that one with the top pushed back. */
  lemma RestReady(store: Store, rank: map<Id, nat>, s: seq<Pending>, bound: nat)
    requires InRank(rank, PendingIds(s)) && s != []
    requires RankedBelow(rank, PendingIds(s), bound) && ParentsFrom(store, rank, PendingIds(s), bound)
    requires NoDup(PendingIds(s))
    ensures var rest := s[..|s| - 1];
      var a := PendingIds(rest);
      var t := s[|s| - 1].id;
      && s == rest + [s[|s| - 1]]
      && PendingIds(s) == a + [t]
      && InRank(rank, a) && t in rank
      && RankedBelow(rank, a, bound) && ParentsFrom(store, rank, a, bound) && NoDup(a)
  {
    var rest := s[..|s| - 1];
    var a := PendingIds(rest);
    var t := s[|s| - 1].id;
    DropLastSplit(s);
    PendingIdsSnoc(rest, s[|s| - 1]);
    assert t in a + [t];
    assert forall x :: x in a ==> x in a + [t];
    RankedBelowSub(rank, a + [t], a, bound);
    ParentsFromSub(store, rank, a + [t], a, bound);
    NoDupDisjoint(a, [t]);
  }

  /** One step of the traversal keeps ids apart: if the subtree of the top
      folder and the rest of the stack each reach no id twice, neither does
      the whole stack. */
  lemma UniqueStep(store: Store, rank: map<Id, nat>, s: seq<Pending>, bound: nat)
    requires Ranked(store, rank) && SingleParentDrive(store, rank)
    requires InRank(rank, PendingIds(s)) && s != []
    requires RankedBelow(rank, PendingIds(s), bound) && ParentsFrom(store, rank, PendingIds(s), bound)
    requires NoDup(PendingIds(s))
    requires InRank(rank, PendingIds(s[..|s| - 1]))
    requires InRank(rank, PendingIds(Pushed(Children(store, s[|s| - 1].id), s[|s| - 1].path)))
    requires UniqueBelow(store, rank, Pushed(Children(store, s[|s| - 1].id), s[|s| - 1].path))
    requires UniqueBelow(store, rank, s[..|s| - 1])
    ensures UniqueBelow(store, rank, s)
  {
    var top := s[|s| - 1];
    var rest := s[..|s| - 1];
    var t := top.id;
    var kids := Children(store, t);
    var pushed := Pushed(kids, top.path);
    var a := PendingIds(rest);
    var k := ChildIds(store, t);
    var u1 := Unfold(store, rank, pushed);
    var u2 := Unfold(store, rank, rest);
    var d1 := FoundIds(u1);
    var d2 := FoundIds(u2);
    RestReady(store, rank, s, bound);
    UnfoldSnoc(store, rank, rest, top);
    NoDupDisjoint(a, [t]);
    NoDupDisjoint(PendingIds(pushed), d1);
    NoDupDisjoint(a, d2);
    Apart(store, rank, rest, top, bound);
    ApartJoined(a, t, k, d1, d2);
    RecordIds(kids, top.path);
    FoundIdsAppend(Record(kids, top.path) + u1, u2);
    FoundIdsAppend(Record(kids, top.path), u1);
    assert FoundIds(Unfold(store, rank, s)) == (k + d1) + d2;
    NoDupJoin(k, d1);
    NoDupJoin(k + d1, d2);
    NoDupJoin(a + [t], (k + d1) + d2);
  }

  /** The reference traversal below a stack whose folders rank below
      `bound`, are listed only by folders ranking at least `bound`, and are
      distinct, reaches no id twice. */
  lemma {:induction false} UniqueUnder(store: Store, rank: map<Id, nat>, s: seq<Pending>, bound: nat)
    requires Ranked(store, rank) && SingleParentDrive(store, rank)
    requires InRank(rank, PendingIds(s))
    requires RankedBelow(rank, PendingIds(s), bound) && ParentsFrom(store, rank, PendingIds(s), bound)
    requires NoDup(PendingIds(s))
    ensures UniqueBelow(store, rank, s)
    decreases MaxRank(rank, PendingIds(s)), |s|
  {
    if s == [] {
      assert PendingIds(s) + FoundIds(Unfold(store, rank, s)) == [];
    } else {
      var n := |s| - 1;
      UnfoldMeasure(store, rank, s);
      assert PendingIds(s)[n] == s[n].id;
      PushedReady(store, rank, s[n]);
      UniqueUnder(store, rank, Pushed(Children(store, s[n].id), s[n].path), rank[s[n].id]);
      RestReady(store, rank, s, bound);
      UniqueUnder(store, rank, s[..n], bound);
      UniqueStep(store, rank, s, bound);
    }
  }

  /** On a drive where every object has one parent, no object is reached
      twice below the seed folders. */
  lemma SeedsAreUnique(store: Store, rank: map<Id, nat>)
    requires Walkable(store, rank) && SingleParentDrive(store, rank)
    ensures SingleParentBelowSeeds(store, rank)
  {
    var folders := store.rootFolders.files;
    var s := SeedPendings(folders);
    assert PendingIds(s) == EntryIds(folders);
    UniqueUnder(store, rank, s, MaxRank(rank, EntryIds(folders)) + 1);
  }

  /** No object appears twice in `all_files`, and the seed folders
      themselves do not appear at all: only their contents are listed. */
  lemma WalkOnceWithoutSeeds(store: Store, rank: map<Id, nat>)
    requires Walkable(store, rank) && SingleParentDrive(store, rank)
    ensures NoDup(FoundIds(Walk(store, rank)))
    ensures forall f, y :: f in store.rootFolders.files && y in Walk(store, rank) ==> y.file.id != f.id
  {
    var folders := store.rootFolders.files;
    var s := SeedPendings(folders);
    SeedsAreUnique(store, rank);
    WalkIsExpected(store, rank);
    var w := Walk(store, rank);
    NoDupDisjoint(PendingIds(s), FoundIds(w));
    assert PendingIds(s) == EntryIds(folders);
    forall f, y | f in folders && y in w ensures y.file.id != f.id {
      EntryIdsHas(folders, f);
      FoundIdsHas(w, y);
    }
  }
}
