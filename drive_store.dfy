/** The shared drive as the auditor sees it: listed objects, paginated listing
    responses, permission records, and the path join used to name objects.
    The Drive service itself is abstracted into the `Store` value. */
module DriveStore {

  datatype Option<T> = None | Some(value: T) {
    /** Python's `dict.get(key, default)` for a key that may be absent. */
    function GetOr(default: T): T {
      match this
      case Some(v) => v
      case None => default
    }
  }

  type Id = string

  const FOLDER_MIME_TYPE: string := "application/vnd.google-apps.folder"

  /** One item of a files.list response (its `id`, `name` and `mimeType`). */
  datatype Entry = Entry(id: Id, name: string, mimeType: string)

  predicate IsFolder(e: Entry) {
    e.mimeType == FOLDER_MIME_TYPE
  }

  /** One files.list response: the `files` list (an absent key reads as the
      empty list) and the optional `nextPageToken`. */
  datatype Page = Page(files: seq<Entry>, nextPageToken: Option<string>)

  /** The pagination loop goes on only when `page_token` is truthy: a token
      that is absent or the empty string ends it. */
  predicate HasNextPage(p: Page) {
    p.nextPageToken.Some? && p.nextPageToken.value != ""
  }

  /** One entry of a permission's `permissionDetails` list. */
  datatype PermissionDetail = PermissionDetail(inherited: Option<bool>)

  /** One permission record; every field may be missing from the response. */
  datatype Permission = Permission(
    granteeType: Option<string>,
    emailAddress: Option<string>,
    role: Option<string>,
    displayName: Option<string>,
    permissionDetails: Option<seq<PermissionDetail>>)

  /** The outcome of one permissions.list call: it raised, or it answered with
      a body whose `permissions` key may be absent. */
  datatype PermissionsReply = FetchFailed | Fetched(permissions: Option<seq<Permission>>)

  /** The drive: the response to the folder-only listing of the drive root,
      the successive responses to the paginated listing of each folder, and
      the permission reply for each object (an object without one fails). */
  datatype Store = Store(
    rootFolders: Page,
    listings: map<Id, seq<Page>>,
    acl: map<Id, PermissionsReply>)

  /** The responses the store gives to the successive list calls on folder `f`,
      each call passing the token of the one before. */
  function Pages(store: Store, f: Id): seq<Page> {
    if f in store.listings then store.listings[f] else []
  }

  /** The `i`-th response; past the recorded responses the store answers with
      an empty last page. */
  function Response(pages: seq<Page>, i: nat): (p: Page)
    ensures i >= |pages| ==> p.files == [] && !HasNextPage(p)
  {
    if i < |pages| then pages[i] else Page([], None)
  }

  /** The children that the pagination loop reads: every page's files, in page
      order, up to and including the first page without a next-page token. */
  function Listed(pages: seq<Page>): seq<Entry> {
    if pages == [] then []
    else pages[0].files + (if HasNextPage(pages[0]) then Listed(pages[1..]) else [])
  }

  function Children(store: Store, f: Id): seq<Entry> {
    Listed(Pages(store, f))
  }

  /** All files of all the given pages, in order. */
  function Flatten(pages: seq<Page>): seq<Entry> {
    if pages == [] then [] else Flatten(pages[..|pages| - 1]) + pages[|pages| - 1].files
  }

  /** A complete, well-formed pagination: every response but the last carries
      a next-page token, and the last one does not. */
  predicate WellPaginated(pages: seq<Page>) {
    && pages != []
    && (forall j :: 0 <= j < |pages| - 1 ==> HasNextPage(pages[j]))
    && !HasNextPage(pages[|pages| - 1])
  }

  lemma {:induction false} FlattenAppend(a: seq<Page>, b: seq<Page>)
    ensures Flatten(a + b) == Flatten(a) + Flatten(b)
    decreases |b|
  {
    if b == [] {
      assert a + b == a;
    } else {
      var n := |b| - 1;
      assert (a + b)[..|a + b| - 1] == a + b[..n];
      FlattenAppend(a, b[..n]);
    }
  }

  /** After `i` pages that each carried a token, the loop has read their files
      and what it reads from then on is the listing of the remaining pages. */
  lemma {:induction false} ListedSplit(pages: seq<Page>, i: nat)
    requires i <= |pages|
    requires forall j :: 0 <= j < i ==> HasNextPage(pages[j])
    ensures Listed(pages) == Flatten(pages[..i]) + Listed(pages[i..])
    decreases i
  {
    if i > 0 {
      ListedSplit(pages, i - 1);
      var tail := pages[i - 1..];
      assert tail[0] == pages[i - 1] && tail[1..] == pages[i..];
      assert Listed(tail) == pages[i - 1].files + Listed(pages[i..]);
      FlattenNext(pages, i - 1);
    } else {
      assert pages[..0] == [] && pages[0..] == pages;
    }
  }

  /** The loop stops exactly at the first response without a token: it reads
      the files of the pages up to and including that one and no others. */
  lemma StopsAtFirstLastPage(pages: seq<Page>, i: nat)
    requires i < |pages|
    requires forall j :: 0 <= j < i ==> HasNextPage(pages[j])
    requires !HasNextPage(pages[i])
    ensures Listed(pages) == Flatten(pages[..i + 1])
  {
    ListedSplit(pages, i);
    var tail := pages[i..];
    assert tail[0] == pages[i];
    assert Listed(tail) == pages[i].files;
    var upTo := pages[..i + 1];
    assert upTo[..|upTo| - 1] == pages[..i];
  }

  /** The files of the first `i + 1` pages are those of the first `i`
      followed by page `i`'s. */
  lemma FlattenNext(pages: seq<Page>, i: nat)
    requires i < |pages|
    ensures Flatten(pages[..i + 1]) == Flatten(pages[..i]) + pages[i].files
  {
    var upTo := pages[..i + 1];
    assert upTo[..|upTo| - 1] == pages[..i];
  }

  /** The pagination loop, after `i` pages with a token, meets a response
      without one: the listing is the files read so far and that response's. */
  lemma LastResponse(pages: seq<Page>, i: nat)
    requires i <= |pages|
    requires forall j :: 0 <= j < i ==> HasNextPage(pages[j])
    requires !HasNextPage(Response(pages, i))
    ensures Listed(pages) == Flatten(pages[..i]) + Response(pages, i).files
  {
    if i < |pages| {
      StopsAtFirstLastPage(pages, i);
      FlattenNext(pages, i);
    } else {
      ListedSplit(pages, i);
      var rest := pages[i..];
      assert rest == [];
    }
  }

  /** On a well-formed pagination every child of every page is read once, in
      page order. */
  lemma PaginationComplete(pages: seq<Page>)
    requires WellPaginated(pages)
    ensures Listed(pages) == Flatten(pages)
  {
    StopsAtFirstLastPage(pages, |pages| - 1);
    assert pages[..|pages|] == pages;
  }

  /** The number of children read on a well-formed pagination is the sum of
      the page sizes, whatever the page boundaries. */
  function TotalFiles(pages: seq<Page>): nat {
    if pages == [] then 0 else TotalFiles(pages[..|pages| - 1]) + |pages[|pages| - 1].files|
  }

  lemma {:induction false} FlattenLength(pages: seq<Page>)
    ensures |Flatten(pages)| == TotalFiles(pages)
  {
    if pages != [] {
      FlattenLength(pages[..|pages| - 1]);
    }
  }

  lemma PaginationCount(pages: seq<Page>)
    requires WellPaginated(pages)
    ensures |Listed(pages)| == TotalFiles(pages)
  {
    PaginationComplete(pages);
    FlattenLength(pages);
  }
}
