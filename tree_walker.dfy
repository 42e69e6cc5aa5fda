/** The tree walker `list_drive_files`: an iterative depth-first traversal
    with an explicit folder stack, a side-table from folder id to resolved
    path, and the output list of discovered objects.

    The functions below describe one run as values: `Step` handles one child,
    `Visit` the children of one folder, `Seed` the folders of the drive root,
    and `Drain` runs the stack machine to the end. `ListDriveFiles` is the
    loop itself, proved to compute `Walk`. The recursive reference traversal
    `Unfold` and its relation to `Drain` are in the module `WalkerProofs`. */
module TreeWalker {
  import opened DriveStore
  import opened Paths

  /** A discovered object: the listed item with its `full_path` attached. */
  datatype Found = Found(file: Entry, fullPath: string)

  /** A folder on the stack together with the path it will be expanded under. */
  datatype Pending = Pending(id: Id, path: string)

  /** The walker's state: `folder_stack`, `folder_paths` and `all_files`. */
  datatype WalkState = WalkState(folderStack: seq<Id>, folderPaths: map<Id, string>, allFiles: seq<Found>)

  function EntryIds(es: seq<Entry>): (r: seq<Id>)
    ensures |r| == |es|
    ensures forall i :: 0 <= i < |es| ==> r[i] == es[i].id
  {
    seq(|es|, i requires 0 <= i < |es| => es[i].id)
  }

  function PendingIds(s: seq<Pending>): (r: seq<Id>)
    ensures |r| == |s|
    ensures forall i :: 0 <= i < |s| ==> r[i] == s[i].id
  {
    seq(|s|, i requires 0 <= i < |s| => s[i].id)
  }

  /** What expanding a folder at `parentPath` appends to `all_files`: every
      child, in listing order, with its path joined onto the parent's. */
  function Record(kids: seq<Entry>, parentPath: string): (r: seq<Found>)
    ensures |r| == |kids|
    ensures forall i :: 0 <= i < |kids| ==> r[i] == Found(kids[i], Join(parentPath, kids[i].name))
  {
    seq(|kids|, i requires 0 <= i < |kids| => Found(kids[i], Join(parentPath, kids[i].name)))
  }

  /** The ids of the folder children, in listing order: what gets pushed. */
  function FolderIds(kids: seq<Entry>): (r: seq<Id>)
    ensures |r| <= |kids|
  {
    if kids == [] then []
    else
      var e := kids[|kids| - 1];
      FolderIds(kids[..|kids| - 1]) + (if IsFolder(e) then [e.id] else [])
  }

  /** The folders pushed while expanding at `parentPath`, each paired with the
      path the side-table records for it. */
  function Pushed(kids: seq<Entry>, parentPath: string): (r: seq<Pending>)
    ensures PendingIds(r) == FolderIds(kids)
  {
    if kids == [] then []
    else
      var e := kids[|kids| - 1];
      var before := Pushed(kids[..|kids| - 1], parentPath);
      var r := before + (if IsFolder(e) then [Pending(e.id, Join(parentPath, e.name))] else []);
      assert PendingIds(r) == PendingIds(before) + (if IsFolder(e) then [e.id] else []);
      r
  }

  /** One listed child of the popped folder (index.js:61-70): its path is the
      join of the parent path and its name; it is appended to `all_files`;
      a folder is also pushed and its path recorded in the side-table. */
  function Step(st: WalkState, parentPath: string, e: Entry): (r: WalkState)
    ensures r.allFiles == st.allFiles + [Found(e, Join(parentPath, e.name))]
    ensures r.folderStack == st.folderStack + (if IsFolder(e) then [e.id] else [])
    ensures r.folderPaths == if IsFolder(e) then st.folderPaths[e.id := Join(parentPath, e.name)] else st.folderPaths
  {
    var fullPath := Join(parentPath, e.name);
    var files := st.allFiles + [Found(e, fullPath)];
    if IsFolder(e) then WalkState(st.folderStack + [e.id], st.folderPaths[e.id := fullPath], files)
    else st.(allFiles := files)
  }

  /** The children `kids` of one folder handled in order (index.js:60-70). */
  function Visit(st: WalkState, parentPath: string, kids: seq<Entry>): (r: WalkState)
    ensures r.allFiles == st.allFiles + Record(kids, parentPath)
    ensures r.folderStack == st.folderStack + FolderIds(kids)
    ensures forall x :: x in r.folderPaths <==> x in st.folderPaths || x in FolderIds(kids)
    ensures forall x :: x in st.folderPaths && x !in FolderIds(kids) ==> r.folderPaths[x] == st.folderPaths[x]
    decreases |kids|
  {
    if kids == [] then st
    else
      var n := |kids| - 1;
      assert Record(kids, parentPath) == Record(kids[..n], parentPath) + [Found(kids[n], Join(parentPath, kids[n].name))];
      Step(Visit(st, parentPath, kids[..n]), parentPath, kids[n])
  }

  /** Seeding (index.js:39-41): each folder of the root page is pushed and
      its bare name recorded as its path; nothing is appended to `all_files`. */
  function Seed(folders: seq<Entry>): (r: WalkState)
    ensures r.allFiles == []
    ensures r.folderStack == EntryIds(folders)
    ensures forall x :: x in r.folderPaths <==> x in EntryIds(folders)
  {
    if folders == [] then WalkState([], map[], [])
    else
      var st := Seed(folders[..|folders| - 1]);
      var e := folders[|folders| - 1];
      st.(folderStack := st.folderStack + [e.id], folderPaths := st.folderPaths[e.id := e.name])
  }

  /** The side-table invariant: every id on the stack has a recorded path, so
      the lookup at pop time (index.js:45) succeeds. */
  predicate Resolvable(st: WalkState) {
    forall x :: x in st.folderStack ==> x in st.folderPaths
  }

  predicate InRank(rank: map<Id, nat>, s: seq<Id>) {
    forall x :: x in s ==> x in rank
  }

  /** A finite, acyclic store: every folder child of a ranked folder is
      ranked strictly lower. */
  predicate Ranked(store: Store, rank: map<Id, nat>) {
    forall f, x :: f in rank && x in FolderIds(Children(store, f)) ==> x in rank && rank[x] < rank[f]
  }

  function MaxRank(rank: map<Id, nat>, s: seq<Id>): (r: nat)
    requires InRank(rank, s)
    ensures forall x :: x in s ==> rank[x] <= r
  {
    if s == [] then 0
    else
      var m := MaxRank(rank, s[..|s| - 1]);
      assert forall x :: x in s ==> x in s[..|s| - 1] || x == s[|s| - 1];
      if rank[s[|s| - 1]] > m then rank[s[|s| - 1]] else m
  }

  lemma {:induction false} MaxRankBelow(rank: map<Id, nat>, s: seq<Id>, bound: nat)
    requires InRank(rank, s)
    requires forall x :: x in s ==> rank[x] < bound
    ensures s == [] || MaxRank(rank, s) < bound
  {
    if s != [] {
      var p := s[..|s| - 1];
      assert forall x :: x in p ==> x in s;
      MaxRankBelow(rank, p, bound);
    }
  }

  lemma {:induction false} MaxRankPrefix(rank: map<Id, nat>, s: seq<Id>, n: nat)
    requires InRank(rank, s) && n <= |s|
    ensures InRank(rank, s[..n]) && MaxRank(rank, s[..n]) <= MaxRank(rank, s)
  {
    assert forall x :: x in s[..n] ==> x in s;
    MaxRankBelow(rank, s[..n], MaxRank(rank, s) + 1);
  }

  /** The number of objects the walk records below the folders `s`. */
  function Count(store: Store, rank: map<Id, nat>, s: seq<Id>): nat
    requires Ranked(store, rank) && InRank(rank, s)
    decreases MaxRank(rank, s), |s|
  {
    if s == [] then 0
    else
      var n := |s| - 1;
      var kids := Children(store, s[n]);
      var k := FolderIds(kids);
      MaxRankBelow(rank, k, rank[s[n]]);
      MaxRankPrefix(rank, s, n);
      |kids| + Count(store, rank, k) + Count(store, rank, s[..n])
  }

  lemma {:induction false} CountAppend(store: Store, rank: map<Id, nat>, a: seq<Id>, b: seq<Id>)
    requires Ranked(store, rank) && InRank(rank, a) && InRank(rank, b)
    ensures InRank(rank, a + b)
    ensures Count(store, rank, a + b) == Count(store, rank, a) + Count(store, rank, b)
    decreases |b|
  {
    if b == [] {
      assert a + b == a;
    } else {
      var n := |b| - 1;
      assert (a + b)[..|a + b| - 1] == a + b[..n];
      assert forall x :: x in b[..n] ==> x in b;
      CountAppend(store, rank, a, b[..n]);
    }
  }

  /** The state after popping the last folder of `st` and visiting every
      child the pagination loop reads for it. */
  function PopAndExpand(store: Store, st: WalkState): WalkState
    requires Resolvable(st) && st.folderStack != []
  {
    var n := |st.folderStack| - 1;
    var f := st.folderStack[n];
    Visit(st.(folderStack := st.folderStack[..n]), st.folderPaths[f], Children(store, f))
  }

  /** One iteration of the outer loop keeps the side-table invariant and the
      rank bound, and brings the run one folder closer to its end. */
  lemma PopAndExpandInvariant(store: Store, rank: map<Id, nat>, st: WalkState)
    requires Ranked(store, rank) && InRank(rank, st.folderStack) && Resolvable(st)
    requires st.folderStack != []
    ensures var next := PopAndExpand(store, st);
            && InRank(rank, next.folderStack) && Resolvable(next)
            && Count(store, rank, next.folderStack) + |next.folderStack| < Count(store, rank, st.folderStack) + |st.folderStack|
    ensures var next := PopAndExpand(store, st);
            && next.allFiles == st.allFiles + Record(Children(store, st.folderStack[|st.folderStack| - 1]), st.folderPaths[st.folderStack[|st.folderStack| - 1]])
            && |next.allFiles| + Count(store, rank, next.folderStack) == |st.allFiles| + Count(store, rank, st.folderStack)
  {
    var n := |st.folderStack| - 1;
    var k := FolderIds(Children(store, st.folderStack[n]));
    CountPop(store, rank, st.folderStack);
    CountAppend(store, rank, st.folderStack[..n], k);
    PopAndExpandResolvable(store, st);
  }

  /** Popping the last folder and pushing its folder children. */
  lemma CountPop(store: Store, rank: map<Id, nat>, s: seq<Id>)
    requires Ranked(store, rank) && InRank(rank, s) && s != []
    ensures var n := |s| - 1;
      var k := FolderIds(Children(store, s[n]));
      && InRank(rank, k) && InRank(rank, s[..n])
      && Count(store, rank, s) == |Children(store, s[n])| + Count(store, rank, k) + Count(store, rank, s[..n])
  {
    var n := |s| - 1;
    var f := s[n];
    var k := FolderIds(Children(store, f));
    assert forall x :: x in s[..n] ==> x in s;
    assert InRank(rank, k) by {
      assert f in rank;
      forall x | x in k ensures x in rank {
        assert x in FolderIds(Children(store, f));
      }
    }
  }

  lemma PopAndExpandResolvable(store: Store, st: WalkState)
    requires Resolvable(st) && st.folderStack != []
    ensures var n := |st.folderStack| - 1;
      && PopAndExpand(store, st).folderStack == st.folderStack[..n] + FolderIds(Children(store, st.folderStack[n]))
      && Resolvable(PopAndExpand(store, st))
  {
    var n := |st.folderStack| - 1;
    var f := st.folderStack[n];
    var kids := Children(store, f);
    var k := FolderIds(kids);
    var rest := st.folderStack[..n];
    var next := Visit(st.(folderStack := rest), st.folderPaths[f], kids);
    assert forall x :: x in rest ==> x in st.folderStack;
    assert next.folderStack == rest + k;
    forall x | x in next.folderStack ensures x in next.folderPaths {
      assert x in rest || x in k;
    }
  }

  /** Runs the outer loop (index.js:43-74) to the end: pop the last folder,
      look up its path, and visit every child the pagination loop reads. */
  function Drain(store: Store, rank: map<Id, nat>, st: WalkState): (r: WalkState)
    requires Ranked(store, rank) && InRank(rank, st.folderStack) && Resolvable(st)
    ensures r.folderStack == []
    ensures st.allFiles <= r.allFiles
    ensures |r.allFiles| == |st.allFiles| + Count(store, rank, st.folderStack)
    decreases Count(store, rank, st.folderStack) + |st.folderStack|
  {
    if st.folderStack == [] then st
    else
      PopAndExpandInvariant(store, rank, st);
      var next := PopAndExpand(store, st);
      assert st.allFiles <= next.allFiles;
      Drain(store, rank, next)
  }

  /** One turn of the outer loop leaves the rest of the run unchanged. */
  lemma DrainStep(store: Store, rank: map<Id, nat>, st: WalkState)
    requires Ranked(store, rank) && InRank(rank, st.folderStack) && Resolvable(st)
    requires st.folderStack != []
    ensures var next := PopAndExpand(store, st);
            && InRank(rank, next.folderStack) && Resolvable(next)
            && Count(store, rank, next.folderStack) + |next.folderStack| < Count(store, rank, st.folderStack) + |st.folderStack|
            && Drain(store, rank, next) == Drain(store, rank, st)
  {
    PopAndExpandInvariant(store, rank, st);
  }

  ghost predicate Walkable(store: Store, rank: map<Id, nat>) {
    Ranked(store, rank) && InRank(rank, EntryIds(store.rootFolders.files))
  }

  /** The `all_files` list `list_drive_files` returns. */
  function Walk(store: Store, rank: map<Id, nat>): (r: seq<Found>)
    requires Walkable(store, rank)
    ensures |r| == Count(store, rank, EntryIds(store.rootFolders.files))
  {
    Drain(store, rank, Seed(store.rootFolders.files)).allFiles
  }

  lemma {:induction false} VisitAppend(st: WalkState, p: string, a: seq<Entry>, b: seq<Entry>)
    ensures Visit(st, p, a + b) == Visit(Visit(st, p, a), p, b)
    decreases |b|
  {
    if b == [] {
      assert a + b == a;
    } else {
      var n := |b| - 1;
      assert (a + b)[..|a + b| - 1] == a + b[..n];
      VisitAppend(st, p, a, b[..n]);
    }
  }

  /** The `for file in response.get('files', [])` loop (index.js:60-70) over
      one page of children of a folder whose path is `currentPath`. */
  method VisitPage(folderStack0: seq<Id>, folderPaths0: map<Id, string>, allFiles0: seq<Found>,
                   currentPath: string, files: seq<Entry>)
    returns (folderStack: seq<Id>, folderPaths: map<Id, string>, allFiles: seq<Found>)
    ensures WalkState(folderStack, folderPaths, allFiles)
         == Visit(WalkState(folderStack0, folderPaths0, allFiles0), currentPath, files)
  {
    folderStack, folderPaths, allFiles := folderStack0, folderPaths0, allFiles0;
    for k := 0 to |files|
      invariant WalkState(folderStack, folderPaths, allFiles)
             == Visit(WalkState(folderStack0, folderPaths0, allFiles0), currentPath, files[..k])
    {
      var file := files[k];
      var fullPath := Join(currentPath, file.name);
      allFiles := allFiles + [Found(file, fullPath)];
      if IsFolder(file) {
        folderStack := folderStack + [file.id];
        folderPaths := folderPaths[file.id := fullPath];
      }
      assert files[..k + 1][..k] == files[..k];
    }
    assert files[..|files|] == files;
  }

  /** The pagination loop (index.js:47-74) for one popped folder: request the
      next page, handle its children, and stop at the first response whose
      `nextPageToken` is absent or empty. */
  method ExpandFolder(store: Store, currentFolderId: Id, currentPath: string,
                      folderStack0: seq<Id>, folderPaths0: map<Id, string>, allFiles0: seq<Found>)
    returns (folderStack: seq<Id>, folderPaths: map<Id, string>, allFiles: seq<Found>)
    ensures WalkState(folderStack, folderPaths, allFiles)
         == Visit(WalkState(folderStack0, folderPaths0, allFiles0), currentPath, Children(store, currentFolderId))
  {
    ghost var popped := WalkState(folderStack0, folderPaths0, allFiles0);
    folderStack, folderPaths, allFiles := folderStack0, folderPaths0, allFiles0;
    var pages := Pages(store, currentFolderId);
    var pageIndex := 0;
    while true
      invariant pageIndex <= |pages|
      invariant forall j :: 0 <= j < pageIndex ==> HasNextPage(pages[j])
      invariant WalkState(folderStack, folderPaths, allFiles) == Visit(popped, currentPath, Flatten(pages[..pageIndex]))
      decreases |pages| - pageIndex
    {
      var response := Response(pages, pageIndex);
      folderStack, folderPaths, allFiles := VisitPage(folderStack, folderPaths, allFiles, currentPath, response.files);
      VisitAppend(popped, currentPath, Flatten(pages[..pageIndex]), response.files);
      if !HasNextPage(response) {
        LastResponse(pages, pageIndex);
        break;
      }
      FlattenNext(pages, pageIndex);
      pageIndex := pageIndex + 1;
    }
  }

  /** The seeding loop (index.js:39-41): push each folder of the root page
      and record its bare name as its path. */
  method SeedFolders(seedFolders: seq<Entry>) returns (folderStack: seq<Id>, folderPaths: map<Id, string>)
    ensures WalkState(folderStack, folderPaths, []) == Seed(seedFolders)
  {
    folderStack, folderPaths := [], map[];
    for i := 0 to |seedFolders|
      invariant WalkState(folderStack, folderPaths, []) == Seed(seedFolders[..i])
    {
      var folder := seedFolders[i];
      folderStack := folderStack + [folder.id];
      folderPaths := folderPaths[folder.id := folder.name];
      assert seedFolders[..i + 1][..i] == seedFolders[..i];
    }
    assert seedFolders[..|seedFolders|] == seedFolders;
  }

  /** The walker. The store is consulted through `Pages` and `Response`; the
      ghost `rank` witnesses that the store is finite and acyclic. */
  method ListDriveFiles(store: Store, ghost rank: map<Id, nat>) returns (allFiles: seq<Found>)
    requires Walkable(store, rank)
    ensures allFiles == Walk(store, rank)
  {
    allFiles := [];
    var folderStack, folderPaths := SeedFolders(store.rootFolders.files);
    ghost var start := WalkState(folderStack, folderPaths, allFiles);

    while folderStack != []
      invariant InRank(rank, folderStack)
      invariant Resolvable(WalkState(folderStack, folderPaths, allFiles))
      invariant Drain(store, rank, WalkState(folderStack, folderPaths, allFiles)) == Drain(store, rank, start)
      decreases Count(store, rank, folderStack) + |folderStack|
    {
      DrainStep(store, rank, WalkState(folderStack, folderPaths, allFiles));
      folderStack, folderPaths, allFiles := PopFolder(store, folderStack, folderPaths, allFiles);
    }
  }

  /** One turn of the outer loop (index.js:44-74): pop the last folder, look
      up its path and run the pagination loop for it. */
  method PopFolder(store: Store, folderStack0: seq<Id>, folderPaths0: map<Id, string>, allFiles0: seq<Found>)
    returns (folderStack: seq<Id>, folderPaths: map<Id, string>, allFiles: seq<Found>)
    requires Resolvable(WalkState(folderStack0, folderPaths0, allFiles0)) && folderStack0 != []
    ensures WalkState(folderStack, folderPaths, allFiles) == PopAndExpand(store, WalkState(folderStack0, folderPaths0, allFiles0))
  {
    var n := |folderStack0| - 1;
    var currentFolderId := folderStack0[n];
    var currentPath := folderPaths0[currentFolderId];
    folderStack, folderPaths, allFiles := ExpandFolder(store, currentFolderId, currentPath, folderStack0[..n], folderPaths0, allFiles0);
  }
}
