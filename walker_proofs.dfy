/** What the walk computes. `Unfold` is an independent, recursive description
    of a depth-first traversal; on a store in which no object is reached twice
    the walker's stack machine, with its side-table of paths, computes exactly
    it. The lemmas then say what is in the result and what is not. */
module WalkerProofs {
  import opened DriveStore
  import opened Paths
  import opened TreeWalker

  ghost predicate NoDup<T>(s: seq<T>) {
    forall i, j :: 0 <= i < j < |s| ==> s[i] != s[j]
  }

  function FoundIds(fs: seq<Found>): (r: seq<Id>)
    ensures |r| == |fs|
    ensures forall i :: 0 <= i < |fs| ==> r[i] == fs[i].file.id
  {
    seq(|fs|, i requires 0 <= i < |fs| => fs[i].file.id)
  }

  /** The pending folders (top of stack last) that seeding produces: each
      folder of the root page with its bare name as path. */
  function SeedPendings(folders: seq<Entry>): (r: seq<Pending>)
    ensures |r| == |folders|
    ensures forall i :: 0 <= i < |folders| ==> r[i] == Pending(folders[i].id, folders[i].name)
  {
    seq(|folders|, i requires 0 <= i < |folders| => Pending(folders[i].id, folders[i].name))
  }

  /** The stack of a state paired with the paths its side-table holds. */
  function PendingOf(stack: seq<Id>, paths: map<Id, string>): (r: seq<Pending>)
    requires forall x :: x in stack ==> x in paths
    ensures |r| == |stack|
    ensures forall i :: 0 <= i < |stack| ==> r[i] == Pending(stack[i], paths[stack[i]])
    ensures PendingIds(r) == stack
  {
    seq(|stack|, i requires 0 <= i < |stack| => assert stack[i] in stack; Pending(stack[i], paths[stack[i]]))
  }

  lemma PendingIdsPrefix(s: seq<Pending>, n: nat)
    requires n <= |s|
    ensures PendingIds(s[..n]) == PendingIds(s)[..n]
  {
  }

  /** The reference traversal: the objects recorded below the pending folders
      `s`, the top of the stack (its last element) first. A folder's children
      come first, in listing order, then the subtrees of its folder children,
      the last pushed first. */
  function Unfold(store: Store, rank: map<Id, nat>, s: seq<Pending>): seq<Found>
    requires Ranked(store, rank) && InRank(rank, PendingIds(s))
    decreases MaxRank(rank, PendingIds(s)), |s|
  {
    if s == [] then []
    else
      var n := |s| - 1;
      var top := s[n];
      var kids := Children(store, top.id);
      var pushed := Pushed(kids, top.path);
      assert top.id in PendingIds(s);
      CountPop(store, rank, PendingIds(s));
      PendingIdsPrefix(s, n);
      MaxRankBelow(rank, FolderIds(kids), rank[top.id]);
      MaxRankPrefix(rank, PendingIds(s), n);
      Record(kids, top.path) + Unfold(store, rank, pushed) + Unfold(store, rank, s[..n])
  }

  /** One step of the reference traversal: the top folder's children, then
      the subtrees of its folder children, then the rest of the stack. */
  lemma UnfoldStep(store: Store, rank: map<Id, nat>, s: seq<Pending>)
    requires Ranked(store, rank) && InRank(rank, PendingIds(s)) && s != []
    ensures var n := |s| - 1;
      var kids := Children(store, s[n].id);
      && InRank(rank, PendingIds(Pushed(kids, s[n].path))) && InRank(rank, PendingIds(s[..n]))
      && Unfold(store, rank, s)
         == Record(kids, s[n].path) + Unfold(store, rank, Pushed(kids, s[n].path)) + Unfold(store, rank, s[..n])
  {
    var n := |s| - 1;
    assert s[n].id in PendingIds(s);
    CountPop(store, rank, PendingIds(s));
    PendingIdsPrefix(s, n);
  }

  lemma DropLastAppend<T>(a: seq<T>, b: seq<T>)
    requires b != []
    ensures (a + b)[|a + b| - 1] == b[|b| - 1]
    ensures (a + b)[..|a + b| - 1] == a + b[..|b| - 1]
  {
  }

  lemma DropLastSplit<T>(s: seq<T>)
    requires s != []
    ensures s[..|s| - 1] + [s[|s| - 1]] == s
  {
  }

  lemma ConcatAssoc<T>(a: seq<T>, b: seq<T>, c: seq<T>)
    ensures a + (b + c) == (a + b) + c
  {
  }

  lemma PendingIdsAppend(a: seq<Pending>, b: seq<Pending>)
    ensures PendingIds(a + b) == PendingIds(a) + PendingIds(b)
  {
  }

  lemma PendingIdsSnoc(a: seq<Pending>, x: Pending)
    ensures PendingIds(a + [x]) == PendingIds(a) + [x.id]
  {
  }

  lemma SnocParts<T>(a: seq<T>, x: T)
    ensures (a + [x])[|a|] == x && (a + [x])[..|a|] == a
  {
  }

  /** `UnfoldStep` for a stack written as `rest + [top]`. */
  lemma UnfoldSnoc(store: Store, rank: map<Id, nat>, rest: seq<Pending>, top: Pending)
    requires Ranked(store, rank) && InRank(rank, PendingIds(rest)) && top.id in rank
    ensures var kids := Children(store, top.id);
      && InRank(rank, PendingIds(rest + [top]))
      && InRank(rank, PendingIds(Pushed(kids, top.path)))
      && Unfold(store, rank, rest + [top])
         == (Record(kids, top.path) + Unfold(store, rank, Pushed(kids, top.path))) + Unfold(store, rank, rest)
  {
    PendingIdsSnoc(rest, top);
    SnocParts(rest, top);
    UnfoldStep(store, rank, rest + [top]);
  }

  /** The inductive step of `UnfoldAppend`: one more folder on top of `b`. */
  lemma UnfoldAppendStep(store: Store, rank: map<Id, nat>, a: seq<Pending>, rest: seq<Pending>, top: Pending)
    requires Ranked(store, rank) && InRank(rank, PendingIds(a)) && InRank(rank, PendingIds(rest)) && top.id in rank
    requires InRank(rank, PendingIds(a + rest))
    requires Unfold(store, rank, a + rest) == Unfold(store, rank, rest) + Unfold(store, rank, a)
    ensures InRank(rank, PendingIds((a + rest) + [top])) && InRank(rank, PendingIds(rest + [top]))
    ensures Unfold(store, rank, (a + rest) + [top]) == Unfold(store, rank, rest + [top]) + Unfold(store, rank, a)
  {
    UnfoldSnoc(store, rank, a + rest, top);
    UnfoldSnoc(store, rank, rest, top);
    var kids := Children(store, top.id);
    ConcatAssoc(Record(kids, top.path) + Unfold(store, rank, Pushed(kids, top.path)),
                Unfold(store, rank, rest), Unfold(store, rank, a));
  }

  /** LIFO: folders pushed later are expanded, with all their descendants,
      before the folders below them on the stack. */
  lemma {:induction false} UnfoldAppend(store: Store, rank: map<Id, nat>, a: seq<Pending>, b: seq<Pending>)
    requires Ranked(store, rank) && InRank(rank, PendingIds(a)) && InRank(rank, PendingIds(b))
    ensures InRank(rank, PendingIds(a + b))
    ensures Unfold(store, rank, a + b) == Unfold(store, rank, b) + Unfold(store, rank, a)
    decreases |b|
  {
    if b == [] {
      assert a + b == a;
    } else {
      var n := |b| - 1;
      var rest := b[..n];
      var top := b[n];
      DropLastSplit(b);
      ConcatAssoc(a, rest, [top]);
      PendingIdsAppend(rest, [top]);
      assert top.id in PendingIds(b);
      UnfoldAppend(store, rank, a, rest);
      UnfoldAppendStep(store, rank, a, rest, top);
    }
  }

  // ---- multiset facts used to carry "no id twice" from one state to the next

  lemma {:induction false} NoDupCounts<T>(s: seq<T>)
    requires NoDup(s)
    ensures forall x :: multiset(s)[x] <= 1
  {
    if s != [] {
      var n := |s| - 1;
      var p := s[..n];
      assert s == p + [s[n]];
      assert NoDup(p);
      NoDupCounts(p);
      assert s[n] !in p by {
        forall i | 0 <= i < n ensures p[i] != s[n] {
          assert p[i] == s[i];
        }
      }
    }
  }

  lemma CountsNoDup<T>(s: seq<T>)
    requires forall x :: multiset(s)[x] <= 1
    ensures NoDup(s)
  {
    forall i, j | 0 <= i < j < |s| ensures s[i] != s[j] {
      var x := s[i];
      assert s == s[..i] + [x] + s[i + 1..j] + [s[j]] + s[j + 1..];
      assert multiset(s)[x] >= 1 + multiset([s[j]])[x];
    }
  }

  lemma NoDupSub<T>(big: seq<T>, small: seq<T>)
    requires NoDup(big) && multiset(small) <= multiset(big)
    ensures NoDup(small)
  {
    NoDupCounts(big);
    CountsNoDup(small);
  }

  lemma NoDupDisjoint<T>(a: seq<T>, b: seq<T>)
    requires NoDup(a + b)
    ensures forall x :: x in a ==> x !in b
    ensures NoDup(a) && NoDup(b)
  {
    forall i, j | 0 <= i < |a| && 0 <= j < |b| ensures a[i] != b[j] {
      assert (a + b)[i] == a[i] && (a + b)[|a| + j] == b[j];
    }
    forall i, j | 0 <= i < j < |b| ensures b[i] != b[j] {
      assert (a + b)[|a| + i] == b[i] && (a + b)[|a| + j] == b[j];
    }
    forall i, j | 0 <= i < j < |a| ensures a[i] != a[j] {
      assert (a + b)[i] == a[i] && (a + b)[j] == a[j];
    }
  }

  lemma {:induction false} FolderIdsSubset(kids: seq<Entry>)
    ensures multiset(FolderIds(kids)) <= multiset(EntryIds(kids))
  {
    if kids != [] {
      var n := |kids| - 1;
      FolderIdsSubset(kids[..n]);
      assert EntryIds(kids) == EntryIds(kids[..n]) + [kids[n].id];
    }
  }

  lemma RecordIds(kids: seq<Entry>, p: string)
    ensures FoundIds(Record(kids, p)) == EntryIds(kids)
  {
  }

  lemma FoundIdsAppend(a: seq<Found>, b: seq<Found>)
    ensures FoundIds(a + b) == FoundIds(a) + FoundIds(b)
  {
  }

  // ---- the side-table after a visit

  /** When the folder children of a visit have distinct ids, the side-table
      afterwards maps each pushed folder to the path it was pushed with. */
  lemma {:induction false} VisitPaths(st: WalkState, p: string, kids: seq<Entry>)
    requires NoDup(FolderIds(kids))
    ensures forall j :: 0 <= j < |Pushed(kids, p)| ==>
      Pushed(kids, p)[j].id in Visit(st, p, kids).folderPaths &&
      Visit(st, p, kids).folderPaths[Pushed(kids, p)[j].id] == Pushed(kids, p)[j].path
    decreases |kids|
  {
    if kids != [] {
      var n := |kids| - 1;
      var e := kids[n];
      var pre := kids[..n];
      assert FolderIds(kids) == FolderIds(pre) + (if IsFolder(e) then [e.id] else []);
      NoDupDisjoint(FolderIds(pre), if IsFolder(e) then [e.id] else []);
      VisitPaths(st, p, pre);
      var before := Pushed(pre, p);
      assert Pushed(kids, p) == before + (if IsFolder(e) then [Pending(e.id, Join(p, e.name))] else []);
      forall j | 0 <= j < |before|
        ensures before[j].id in Visit(st, p, kids).folderPaths
        ensures Visit(st, p, kids).folderPaths[before[j].id] == before[j].path
      {
        assert before[j].id == PendingIds(before)[j];
        assert before[j].id in FolderIds(pre);
      }
    }
  }

  /** A stack read against a side-table that holds each entry's own path. */
  lemma {:induction false} PendingOfExact(s: seq<Pending>, m: map<Id, string>)
    requires forall j :: 0 <= j < |s| ==> s[j].id in m && m[s[j].id] == s[j].path
    ensures forall x :: x in PendingIds(s) ==> x in m
    ensures PendingOf(PendingIds(s), m) == s
  {
    if s != [] {
      var n := |s| - 1;
      PendingIdsPrefix(s, n);
      PendingOfExact(s[..n], m);
      assert PendingIds(s)[..n] == PendingIds(s[..n]);
    }
  }

  lemma {:induction false} PendingOfAppend(a: seq<Id>, b: seq<Id>, m: map<Id, string>)
    requires forall x :: x in a + b ==> x in m
    ensures PendingOf(a + b, m) == PendingOf(a, m) + PendingOf(b, m)
    decreases |b|
  {
    if b == [] {
      assert a + b == a;
    } else {
      var n := |b| - 1;
      assert (a + b)[..|a + b| - 1] == a + b[..n];
      PendingOfAppend(a, b[..n], m);
    }
  }

  lemma {:induction false} PendingOfAgree(s: seq<Id>, m: map<Id, string>, m': map<Id, string>)
    requires forall x :: x in s ==> x in m && x in m' && m[x] == m'[x]
    ensures PendingOf(s, m) == PendingOf(s, m')
  {
    if s != [] {
      var n := |s| - 1;
      assert forall x :: x in s[..n] ==> x in s;
      PendingOfAgree(s[..n], m, m');
    }
  }

  /** "No object is reached twice": the ids on the stack and the ids of every
      object the traversal below them records are pairwise distinct. This is
      what a finite, acyclic store in which each object has one parent gives. */
  ghost predicate UniqueBelow(store: Store, rank: map<Id, nat>, s: seq<Pending>)
    requires Ranked(store, rank) && InRank(rank, PendingIds(s))
  {
    NoDup(PendingIds(s) + FoundIds(Unfold(store, rank, s)))
  }

  /** Popping the top folder of the reference traversal: its children are
      recorded, and the traversal goes on below the rest of the stack with
      the folder's folder children pushed on top. */
  lemma UnfoldPop(store: Store, rank: map<Id, nat>, s: seq<Pending>)
    requires Ranked(store, rank) && InRank(rank, PendingIds(s)) && s != []
    ensures var n := |s| - 1;
      var kids := Children(store, s[n].id);
      var next := s[..n] + Pushed(kids, s[n].path);
      && InRank(rank, PendingIds(next))
      && Unfold(store, rank, s) == Record(kids, s[n].path) + Unfold(store, rank, next)
  {
    var n := |s| - 1;
    var kids := Children(store, s[n].id);
    var pushed := Pushed(kids, s[n].path);
    UnfoldStep(store, rank, s);
    UnfoldAppend(store, rank, s[..n], pushed);
    ConcatAssoc(Record(kids, s[n].path), Unfold(store, rank, pushed), Unfold(store, rank, s[..n]));
  }

  /** Replacing one id `t` by a sub-multiset `k` of the ids `e` that followed
      it keeps a sequence free of repetitions. */
  lemma NoDupPop<T>(r: seq<T>, t: T, e: seq<T>, k: seq<T>, u: seq<T>)
    requires NoDup((r + [t]) + (e + u))
    requires multiset(k) <= multiset(e)
    ensures NoDup((r + k) + u)
    ensures NoDup(k) && forall x :: x in r ==> x !in k
  {
    assert multiset((r + k) + u) <= multiset((r + [t]) + (e + u));
    NoDupSub((r + [t]) + (e + u), (r + k) + u);
    NoDupDisjoint(r + k, u);
    NoDupDisjoint(r, k);
  }

  /** The ids that uniqueness speaks of, before and after one step. */
  lemma UniqueIdsPop(store: Store, rank: map<Id, nat>, s: seq<Pending>)
    requires Ranked(store, rank) && InRank(rank, PendingIds(s)) && s != []
    ensures var n := |s| - 1;
      var kids := Children(store, s[n].id);
      var next := s[..n] + Pushed(kids, s[n].path);
      && InRank(rank, PendingIds(next))
      && PendingIds(s) + FoundIds(Unfold(store, rank, s))
         == (PendingIds(s[..n]) + [s[n].id]) + (EntryIds(kids) + FoundIds(Unfold(store, rank, next)))
      && PendingIds(next) + FoundIds(Unfold(store, rank, next))
         == (PendingIds(s[..n]) + FolderIds(kids)) + FoundIds(Unfold(store, rank, next))
  {
    var n := |s| - 1;
    var kids := Children(store, s[n].id);
    var pushed := Pushed(kids, s[n].path);
    var next := s[..n] + pushed;
    UnfoldPop(store, rank, s);
    var u := Unfold(store, rank, next);
    FoundIdsAppend(Record(kids, s[n].path), u);
    RecordIds(kids, s[n].path);
    DropLastSplit(s);
    PendingIdsSnoc(s[..n], s[n]);
    PendingIdsAppend(s[..n], pushed);
  }

  /** Uniqueness below a stack carries over to the stack after one step;
      in particular the pushed folders are distinct and not already pending. */
  lemma UniquePop(store: Store, rank: map<Id, nat>, s: seq<Pending>)
    requires Ranked(store, rank) && InRank(rank, PendingIds(s)) && s != []
    requires UniqueBelow(store, rank, s)
    ensures var n := |s| - 1;
      var kids := Children(store, s[n].id);
      var next := s[..n] + Pushed(kids, s[n].path);
      && InRank(rank, PendingIds(next))
      && UniqueBelow(store, rank, next)
      && NoDup(FolderIds(kids))
      && forall x :: x in PendingIds(s[..n]) ==> x !in FolderIds(kids)
  {
    var n := |s| - 1;
    var kids := Children(store, s[n].id);
    var next := s[..n] + Pushed(kids, s[n].path);
    UniqueIdsPop(store, rank, s);
    FolderIdsSubset(kids);
    NoDupPop(PendingIds(s[..n]), s[n].id, EntryIds(kids), FolderIds(kids), FoundIds(Unfold(store, rank, next)));
  }

  lemma PendingOfPop(stack: seq<Id>, paths: map<Id, string>)
    requires forall x :: x in stack ==> x in paths
    requires stack != []
    ensures var n := |stack| - 1;
      && (forall x :: x in stack[..n] ==> x in paths)
      && PendingOf(stack, paths)[..n] == PendingOf(stack[..n], paths)
      && PendingOf(stack, paths)[n] == Pending(stack[n], paths[stack[n]])
  {
    var n := |stack| - 1;
    assert forall x :: x in stack[..n] ==> x in stack;
  }

  /** The stack and side-table after a pop-and-expand step, read together:
      the rest of the old stack with its old paths, then the pushed folders
      with the paths they were pushed with. This needs the pushed folders
      to be distinct and not already on the stack. */
  lemma NextPending(store: Store, st: WalkState)
    requires Resolvable(st) && st.folderStack != []
    requires var n := |st.folderStack| - 1;
      var k := FolderIds(Children(store, st.folderStack[n]));
      NoDup(k) && forall x :: x in st.folderStack[..n] ==> x !in k
    ensures var n := |st.folderStack| - 1;
      var f := st.folderStack[n];
      var next := PopAndExpand(store, st);
      && Resolvable(next)
      && (forall x :: x in st.folderStack[..n] ==> x in st.folderPaths)
      && PendingOf(next.folderStack, next.folderPaths)
         == PendingOf(st.folderStack[..n], st.folderPaths) + Pushed(Children(store, f), st.folderPaths[f])
  {
    var n := |st.folderStack| - 1;
    var f := st.folderStack[n];
    var p := st.folderPaths[f];
    var kids := Children(store, f);
    var k := FolderIds(kids);
    var rest := st.folderStack[..n];
    var next := PopAndExpand(store, st);
    var pushed := Pushed(kids, p);
    PopAndExpandResolvable(store, st);
    assert forall x :: x in rest ==> x in st.folderStack;
    VisitPaths(st.(folderStack := rest), p, kids);
    PendingOfAppend(rest, k, next.folderPaths);
    forall x | x in rest ensures x in next.folderPaths && next.folderPaths[x] == st.folderPaths[x] {
      assert x !in k;
    }
    PendingOfAgree(rest, st.folderPaths, next.folderPaths);
    PendingOfExact(pushed, next.folderPaths);
  }

  /** One pop-and-expand step of the stack machine is one step of the
      reference traversal, and keeps the uniqueness it needs. */
  lemma PopAndExpandUnfolds(store: Store, rank: map<Id, nat>, st: WalkState)
    requires Ranked(store, rank) && InRank(rank, st.folderStack) && Resolvable(st)
    requires st.folderStack != []
    requires UniqueBelow(store, rank, PendingOf(st.folderStack, st.folderPaths))
    ensures var next := PopAndExpand(store, st);
      && InRank(rank, next.folderStack) && Resolvable(next)
      && UniqueBelow(store, rank, PendingOf(next.folderStack, next.folderPaths))
      && next.allFiles + Unfold(store, rank, PendingOf(next.folderStack, next.folderPaths))
         == st.allFiles + Unfold(store, rank, PendingOf(st.folderStack, st.folderPaths))
  {
    var n := |st.folderStack| - 1;
    var f := st.folderStack[n];
    var p := st.folderPaths[f];
    var kids := Children(store, f);
    var next := PopAndExpand(store, st);
    var s := PendingOf(st.folderStack, st.folderPaths);
    PendingOfPop(st.folderStack, st.folderPaths);
    UniquePop(store, rank, s);
    assert s[n].id == f;
    assert PendingIds(s[..n]) == st.folderStack[..n];
    NextPending(store, st);
    PopAndExpandInvariant(store, rank, st);
    UnfoldPop(store, rank, s);
    var later := Unfold(store, rank, PendingOf(next.folderStack, next.folderPaths));
    ConcatAssoc(st.allFiles, Record(kids, p), later);
  }

  /** The stack machine run to its end records exactly the reference traversal
      of the folders on its stack. */
  lemma {:induction false} DrainIsUnfold(store: Store, rank: map<Id, nat>, st: WalkState)
    requires Ranked(store, rank) && InRank(rank, st.folderStack) && Resolvable(st)
    requires UniqueBelow(store, rank, PendingOf(st.folderStack, st.folderPaths))
    ensures Drain(store, rank, st).allFiles == st.allFiles + Unfold(store, rank, PendingOf(st.folderStack, st.folderPaths))
    decreases Count(store, rank, st.folderStack) + |st.folderStack|
  {
    if st.folderStack != [] {
      PopAndExpandInvariant(store, rank, st);
      PopAndExpandUnfolds(store, rank, st);
      DrainIsUnfold(store, rank, PopAndExpand(store, st));
    }
  }

  /** Seeding with distinct folder ids leaves each seed folder on the stack
      with its bare name as path. */
  lemma {:induction false} SeedPaths(folders: seq<Entry>)
    requires NoDup(EntryIds(folders))
    ensures forall j :: 0 <= j < |folders| ==>
      folders[j].id in Seed(folders).folderPaths && Seed(folders).folderPaths[folders[j].id] == folders[j].name
  {
    if folders != [] {
      var n := |folders| - 1;
      var pre := folders[..n];
      assert EntryIds(folders) == EntryIds(pre) + [folders[n].id];
      NoDupDisjoint(EntryIds(pre), [folders[n].id]);
      SeedPaths(pre);
      forall j | 0 <= j < n
        ensures folders[j].id in Seed(folders).folderPaths && Seed(folders).folderPaths[folders[j].id] == folders[j].name
      {
        assert pre[j] == folders[j];
        assert folders[j].id == EntryIds(pre)[j];
      }
    }
  }

  lemma SeedIsPending(folders: seq<Entry>)
    requires NoDup(EntryIds(folders))
    ensures Resolvable(Seed(folders))
    ensures PendingOf(Seed(folders).folderStack, Seed(folders).folderPaths) == SeedPendings(folders)
  {
    SeedPaths(folders);
    var s := SeedPendings(folders);
    assert PendingIds(s) == EntryIds(folders);
    PendingOfExact(s, Seed(folders).folderPaths);
  }

  /** The walk's reference result: the traversal below the seed folders. */
  function Expected(store: Store, rank: map<Id, nat>): seq<Found>
    requires Walkable(store, rank)
  {
    var s := SeedPendings(store.rootFolders.files);
    assert PendingIds(s) == EntryIds(store.rootFolders.files);
    Unfold(store, rank, s)
  }

  /** The drive is a tree below the seed folders: no object is reached twice. */
  ghost predicate SingleParentBelowSeeds(store: Store, rank: map<Id, nat>)
    requires Walkable(store, rank)
  {
    var s := SeedPendings(store.rootFolders.files);
    assert PendingIds(s) == EntryIds(store.rootFolders.files);
    UniqueBelow(store, rank, s)
  }

  /** The state seeding leaves is one the stack-machine lemmas apply to. */
  lemma SeedStart(store: Store, rank: map<Id, nat>)
    requires Walkable(store, rank)
    requires SingleParentBelowSeeds(store, rank)
    ensures var st := Seed(store.rootFolders.files);
      && InRank(rank, st.folderStack) && Resolvable(st)
      && PendingOf(st.folderStack, st.folderPaths) == SeedPendings(store.rootFolders.files)
      && UniqueBelow(store, rank, PendingOf(st.folderStack, st.folderPaths))
  {
    var folders := store.rootFolders.files;
    var s := SeedPendings(folders);
    assert PendingIds(s) == EntryIds(folders);
    NoDupDisjoint(PendingIds(s), FoundIds(Unfold(store, rank, s)));
    SeedIsPending(folders);
  }

  /** On such a store the walker returns the reference traversal. */
  lemma WalkIsUnfold(store: Store, rank: map<Id, nat>)
    requires Walkable(store, rank)
    requires SingleParentBelowSeeds(store, rank)
    ensures Walk(store, rank) == Expected(store, rank)
  {
    var st := Seed(store.rootFolders.files);
    SeedStart(store, rank);
    DrainIsUnfold(store, rank, st);
    assert st.allFiles == [];
  }
}
