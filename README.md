# Google Drive permission auditor, modelled in Dafny

The auditor walks a shared drive and lists every file and folder below the
drive's top-level folders, each with its full path. It then fetches each
object's permission records and writes one CSV row per direct, non-inherited
grant. This project models that core in `index.js`, which is a Python
script despite its name:

- `list_drive_files` (lines 24-76) is an imperative walk. It uses:
  - a LIFO stack of folder ids;
  - a side-table from folder id to path;
  - a paginated listing loop per folder.
- `get_permissions` (lines 78-88) fetches the records of one object.
- `audit_drive` (lines 91-120) holds the record filter and the report loop.

Modules:

- `DriveStore` (`drive_store.dfy`): the drive as a value.
  - The seed page lists the folders at the top of the drive.
  - Each folder has a list of successive listing responses.
  - Each object has a permissions reply.
  - `Listed` reads responses up to and including the first one whose token
    is missing or empty.
- `Paths` (`paths.dfy`): `os.path.join` for two POSIX arguments.
  - An absolute name replaces the parent.
  - An empty parent, or one ending in `/`, gets no second separator.
- `TreeWalker` (`tree_walker.dfy`):
  - the walk as a state machine: `Seed`, then `PopAndExpand` until the stack
    is empty (`Drain`, `Walk`);
  - the imperative methods proved to compute it: `SeedFolders` (seeding
    `for`), `VisitPage` (inner `for`), `ExpandFolder` (the `while True`
    pagination loop), `PopFolder` (one turn of the outer loop) and
    `ListDriveFiles`.
  - A ghost `rank` stands for a finite, acyclic drive.
- `WalkerProofs` and `WalkProperties` (`walker_proofs.dfy`,
  `walk_properties.dfy`): an independent recursive depth-first reference,
  `Unfold`.
  - The stack machine equals it whenever no object is reached twice
    (`SingleParentBelowSeeds`).
  - From that follow completeness, soundness and closure of the walk.
- `SingleParent` (`single_parent.dfy`): drives on which every object has one
  parent (`SingleParentDrive`). The conditions are on the store alone:
  - the top-level folders are distinct;
  - no folder lists an object twice;
  - no object is listed under two folders;
  - no top-level folder is listed under a folder.

  On such a drive no object is reached twice (`SeedsAreUnique`, by
  induction on `Unfold`). So the walk lists each object once and lists no
  top-level folder (`WalkOnceWithoutSeeds`).
- `Permissions` (`permissions.dfy`): how one record is read.
  - The first detail of `permissionDetails` is the one that counts.
    - A missing list reads as `[{}]`.
    - A missing `inherited` reads as `True`.
  - The grantee falls back from email to display name to `"N/A"`.
  - Also here: the row, the header, and `get_permissions`.
- `Audit` (`audit.dfy`): the report.
  - `FileRows` and `AuditRows` follow the two loops.
  - `Expected` is the reference: every direct grant, cut at the first record
    whose reading raises.
  - `AuditFile`, `AuditFiles` and `AuditDrive` are the loops, proved to
    write `[HEADER] + Lines(AuditRows(...).rows)`.
- `Scenarios` (`scenarios.dfy`): a three-object drive worked out step by
  step. It covers two-page listing, nested paths, one direct and one
  inherited grant, and a run that stops part-way.

The model keeps these details of the code:

- A record whose `permissionDetails` is present but empty does not read as
  inherited. Taking `[0]` of the empty list raises an IndexError that
  nothing catches. The model ends the run there (`completed == false`) and
  keeps the header and the rows already written.
- The folders at the top of the drive are pushed from their bare name, and
  are never themselves put in `all_files`. So, on a drive where every
  object has one parent, their own permissions are never audited
  (`Audit.SeedsNotAudited`).
- Objects directly under the drive root that are not folders are never
  listed: the seed query asks for folders only.
- The seed listing reads one response only; its `nextPageToken` is ignored.
- A folder's listing stops on an empty next-page token as well as on a
  missing one.

## Model

| member | source | states |
|---|---|---|
| DriveStore.StopsAtFirstLastPage | index.js:47-74 | The pagination loop reads exactly the pages up to and including the first one without a usable token. |
| DriveStore.LastResponse | index.js:47-74 | When the response after `i` pages with a token has no usable token, the children read are those `i` pages' files followed by that response's. |
| DriveStore.PaginationComplete | index.js:47-74 | On a well-formed pagination, every page's children are read, in page order. |
| DriveStore.PaginationCount | index.js:47-74 | On a well-formed pagination, the number of children read is the sum of the page sizes, whatever the page boundaries. |
| Paths.JoinIsConcat | index.js:64 | A parent not ending in `/` joined with a relative name gives `parent + "/" + name`. |
| Paths.JoinPlain | index.js:64 | Joining plain components gives `parent/name` and stays plain. |
| Paths.JoinAbsoluteDropsParent | index.js:64 | An absolute child name discards the parent path. |
| TreeWalker.Step | index.js:61-70 | Handling one child appends it to `all_files` with its joined path. A folder child is also pushed on the stack and given that path in the side-table. Other paths are unchanged. |
| TreeWalker.Seed | index.js:39-41 | Seeding gives an empty file list, the seed ids on the stack in listing order, and a path for each of them. |
| TreeWalker.Pushed | index.js:66-70 | The folders pushed while visiting children are exactly the folder children, in order. |
| TreeWalker.Visit | index.js:60-70 | Visiting children appends one record per child with its joined path, pushes the folder children in order, and adds their paths, leaving other paths unchanged. |
| TreeWalker.VisitAppend | index.js:47-74 | Visiting children page by page is the same as visiting their concatenation. |
| TreeWalker.PopAndExpandInvariant | index.js:43-74 | One outer iteration keeps every stacked id resolvable and ranked, and strictly lowers the termination measure. |
| TreeWalker.DrainStep | index.js:43-74 | One outer iteration keeps the stack ranked and resolvable, lowers the measure, and leaves the final result of the run unchanged. |
| TreeWalker.Drain | index.js:43-74 | Running the outer loop to the end leaves the stack empty. It only appends to `all_files`, and it appends exactly the number of objects below the stacked folders (`Count`). |
| TreeWalker.Walk | index.js:24-76 | The walk lists as many objects as lie below the seed folders (`Count`). |
| TreeWalker.SeedFolders | index.js:39-41 | The seeding `for` loop computes `Seed` of the root page's folders. |
| TreeWalker.VisitPage | index.js:60-70 | The `for` loop over one page computes `Visit` of that page. |
| TreeWalker.ExpandFolder | index.js:47-74 | The `while True` pagination loop computes `Visit` of all the folder's listed children. |
| TreeWalker.PopFolder | index.js:44-74 | One turn of the outer loop pops the last folder, reads its path and runs the pagination loop: it computes `PopAndExpand`. |
| TreeWalker.ListDriveFiles | index.js:24-76 | The method returns `Walk`, the result of seeding and then draining the stack. |
| WalkerProofs.UnfoldAppend | index.js:43-45 | The reference traversal of a stack is the traversal of its top part followed by that of the rest, so the stack is LIFO. |
| WalkerProofs.VisitPaths | index.js:68-70 | After a visit, the side-table gives each pushed folder its joined path. |
| WalkerProofs.DrainIsUnfold | index.js:43-74 | If no id is reached twice, draining a consistent state appends exactly the reference traversal of its pending folders. |
| WalkerProofs.WalkIsUnfold | index.js:24-76 | If no object is reached twice, the walk equals the reference depth-first traversal from the seed folders. |
| WalkProperties.WalkHasSeedChildren | index.js:39-41 | Every child of a seed folder is listed, under `seed name/child name`. |
| WalkProperties.WalkClosed | index.js:60-70 | Every child of a listed folder is listed, under that folder's path joined with its name. |
| WalkProperties.WalkSound | index.js:60-70 | Every listed object is a child of a seed folder or of a listed folder, under the matching joined path. |
| SingleParent.SeedsAreUnique | index.js:39-76 | On a drive where every object has one parent, no object is reached twice below the seed folders. |
| SingleParent.UniqueUnder | index.js:43-74 | Below a stack of distinct folders that rank below a bound and whose parents rank at least that bound, the traversal reaches no id twice. |
| SingleParent.WalkOnceWithoutSeeds | index.js:39-76 | On a drive where every object has one parent, each object is listed once and no seed folder is listed. |
| Permissions.ReadInherited | index.js:104-105 | Reading `inherited` raises exactly on a present, empty details list. It gives `False` exactly for a direct grant, and `True` in every other case. |
| Permissions.Decide | index.js:104-108 | A record is reported iff its first detail says not inherited. It raises iff its details list is present and empty. Otherwise it is skipped. |
| Permissions.MissingMeansInherited | index.js:104-105 | A missing details list, or a first detail without `inherited`, reads as inherited and is skipped. |
| Permissions.Identifier | index.js:110 | The grantee is the email if present, else the display name if present, else "N/A". |
| Permissions.Cells | index.js:96-118 | A row has as many cells as the header. |
| Permissions.RowFor | index.js:110-118 | The row's cells are, in header order: path, id, grantee, type (`""` if absent), role (`""` if absent), and `str(inherited)`. |
| Permissions.GetPermissions | index.js:78-88 | A failed fetch, or an object with no reply, gives no records. A reply's `permissions` list is returned as is, and a reply without that key gives no records. |
| Audit.FileRows | index.js:103-118 | The record loop writes at most one row per record, each naming the object with Inherited cell "False". It completes iff no record raises. |
| Audit.AuditRows | index.js:98-118 | The object loop completes iff every object's record loop completes, and every row it writes has Inherited cell "False". |
| Audit.FirstBreak | index.js:103-104 | Gives the position of the first record whose reading raises, or the length if there is none. |
| Audit.FirstBreakingFile | index.js:98-104 | Gives the position of the first object with a raising record, or the length if there is none. |
| Audit.FileRowsSpec | index.js:103-118 | The record loop writes the direct grants before the first raising record, and completes iff there is none. |
| Audit.AuditRowsSpec | index.js:98-118 | The object loop writes every direct grant of the objects before the first breaking object, then that object's direct grants before its raising record. |
| Audit.RowsAreDirect | index.js:107-118 | Every row written is a direct grant of a listed object, with Inherited cell "False". |
| Audit.CompletedIff | index.js:98-118 | The run completes iff no record of any object raises, and then it reports all direct grants. |
| Audit.DirectGrantsReported | index.js:103-118 | A completed run reports every direct grant of every object. |
| Audit.RowsOnlyGrow | index.js:94-118 | The rows written up to any object are a prefix of the final report, so a stopped run keeps what it wrote. |
| Audit.FileRowsStuck | index.js:104 | Once a record has raised, the later records of that object add nothing. |
| Audit.AuditRowsStuck | index.js:98-104 | Once an object's record has raised, the later objects add nothing. |
| Audit.AuditRowsSnoc | index.js:98-118 | One more object at the end adds its record loop's rows after the others and takes that loop's completion, unless the run already stopped, in which case nothing changes. |
| Audit.FetchFailureIsolated | index.js:86-88 | An object whose fetch failed adds nothing to the report and does not stop the run. |
| Audit.SeedsNotAudited | index.js:39-41 | On a drive where every object has one parent, no row names a seed folder. |
| Audit.Lines | index.js:111-118 | Gives one CSV line per row, each line being that row's cells. |
| Audit.AuditFile | index.js:99-118 | The record loop for one object appends the lines of `FileRows` and reports whether it completed. |
| Audit.AuditFiles | index.js:96-118 | The object loop writes the header and then the lines of `AuditRows`, and reports whether it completed. |
| Audit.AuditDrive | index.js:91-120 | The run writes the header and then the lines of `AuditRows` over the walk, in walk order. |
| Scenarios.DriveWalk | index.js:24-76 | A drive whose Reports folder is listed over two pages and holds Archive with old.txt walks to `Reports/Q1.pdf`, `Reports/Archive`, `Reports/Archive/old.txt`. |
| Scenarios.DriveAudit | index.js:91-118 | On that drive, a direct reader grant to alice and an inherited writer grant to bob give one row: `Reports/Q1.pdf, q1, alice@example.com, user, reader, False`. |
| Scenarios.BrokenAuditRows | index.js:103-118 | An empty details list on Q1.pdf stops the run after alice's row, and a later direct grant is never written. |

## Left out

- Credentials, service-account impersonation and environment variables (lines 1-21): these are configuration, not logic.
- The query strings, `corpora`, `driveId`, page size and field masks. The store returns what those queries select:
  - a folder's listing leaves out trashed objects (line 50);
  - the seed page holds folders only (line 30), and its query has no trashed filter, so a trashed top-level folder is seeded and expanded like any other.
- The network and the Drive API. The store is a value, and each listing response is an element of a sequence.
- CSV serialisation and file I/O. The report is the sequence of lines the writer receives.
- The `print` calls, including the progress message.
- A listing call that raises inside `list_drive_files`. It is uncaught and ends the program before the CSV is opened, so the model's store always answers a listing.
- The logged error text of a failed permission fetch. Only its effect, an empty record list, is modelled.
- JSON `null` values. An absent key and a present key are modelled; a `null` is not.
- An `inherited` value that is not a boolean. Python's truthiness on other values is not modelled.
- The `file['name']` fallback in `file.get('full_path', file['name'])`. Every object the walk returns carries a full path, so the fallback cannot be reached.
- Cyclic or infinite drives. On those the source does not terminate. The walk requires a ghost `rank` that strictly decreases from a folder to its folder children.
- WalkerProofs.WalkIsUnfold: does not state the walk for drives where an object is reached twice. The side-table then keeps the last path written, and the object is expanded again. The equivalence and the properties derived from it assume no id is reached twice (`SingleParentBelowSeeds`); `SingleParent.SeedsAreUnique` derives that from conditions on the store. The as-written walk itself, `TreeWalker.ListDriveFiles`, covers all acyclic drives.
- Permissions.Cells: states only the column count. The cell order is stated by `Permissions.RowFor`.
