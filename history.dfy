/** The "recently opened" history store of the editor (plugins/vscode/src/files.ts).
    The editor keeps its history as one row of the `ItemTable` of a SQLite file; the
    row's value is the JSON text of `{entries: Entry[]}`. Here a database file is the
    map from key to value of that table, and a value is represented by what it decodes
    to, so that no JSON codec appears in the model. */
module History {
  import opened Wrappers
  import opened JsString

  /** The key of the history row. */
  const HistoryKey := "history.recentlyOpenedPathsList"

  datatype Workspace = Workspace(id: string, configPath: string)

  /** One history entry: a bare string, or a record whose fields are all optional. */
  datatype Entry =
    | Bare(path: string)
    | Record(fileUri: Option<string>, folderUri: Option<string>, workspace: Option<Workspace>,
             displayLabel: Option<string>, remoteAuthority: Option<string>)

  /** The value of a row: empty (the empty text or SQL NULL), text that does not parse
      as `{entries: [...]}`, or the decoded history. */
  datatype Cell = NoValue | Unparsable | Recent(entries: seq<Entry>)

  /** The `ItemTable` of one database file, key to value. */
  type Table = map<string, Cell>

  datatype StoreError =
    | FileUnreadable    // readFileSync fails or the path is undefined
    | RowMissing        // the lookup of the history key returns no row
    | ValueEmpty        // the history value is empty
    | ValueUnparsable   // JSON.parse fails or yields no entries array
    | PathUndefined     // an entry has neither uri nor workspace (GetFiles dereferences undefined)

  /** The database files on disk, and the paths written back, in order. */
  class Disk {
    var files: map<string, Table>
    var writes: seq<string>

    constructor (files: map<string, Table>)
      ensures this.files == files && writes == []
    {
      this.files := files;
      writes := [];
    }
  }

  /** `fileUri || folderUri || workspace.configPath`, or the entry itself when it is a
      string; `None` is `undefined`. */
  function CanonicalPath(e: Entry): Option<string> {
    match e
    case Bare(p) => Some(p)
    case Record(file, folder, ws, _, _) =>
      if Truthy(file) then file
      else if Truthy(folder) then folder
      else if ws.Some? then Some(ws.value.configPath)
      else None
  }

  /** The canonical path of an entry follows the priority fileUri, folderUri,
      workspace.configPath, where an empty uri counts as missing. */
  lemma CanonicalPathPriority(e: Entry)
    ensures e.Bare? ==> CanonicalPath(e) == Some(e.path)
    ensures e.Record? && Truthy(e.fileUri) ==> CanonicalPath(e) == e.fileUri
    ensures e.Record? && !Truthy(e.fileUri) && Truthy(e.folderUri) ==> CanonicalPath(e) == e.folderUri
    ensures e.Record? && !Truthy(e.fileUri) && !Truthy(e.folderUri) ==>
      CanonicalPath(e) == if e.workspace.Some? then Some(e.workspace.value.configPath) else None
    ensures CanonicalPath(e).Some? ==> e.Bare? || CanonicalPath(e).value != "" || e.workspace.Some?
  {
  }

  /** Open the file at `path`, look up the history row and decode its value. */
  function Load(files: map<string, Table>, path: Option<string>): (r: Result<seq<Entry>, StoreError>)
    ensures r == Failure(FileUnreadable) <==> path.None? || path.value !in files
    ensures r.Success? <==>
      path.Some? && path.value in files && HistoryKey in files[path.value] && files[path.value][HistoryKey].Recent?
    ensures r.Success? ==> r.value == files[path.value][HistoryKey].entries
  {
    if path.None? || path.value !in files then Failure(FileUnreadable)
    else if HistoryKey !in files[path.value] then Failure(RowMissing)
    else match files[path.value][HistoryKey]
      case NoValue => Failure(ValueEmpty)
      case Unparsable => Failure(ValueUnparsable)
      case Recent(es) => Success(es)
  }

  /** `entries.map(...)` of GetFiles: the canonical path of each entry, failing at an
      entry whose path is undefined. */
  function Paths(es: seq<Entry>): (r: Result<seq<string>, StoreError>)
    ensures r.Success? <==> forall i :: 0 <= i < |es| ==> CanonicalPath(es[i]).Some?
    ensures r.Failure? ==> r.error == PathUndefined
    ensures r.Success? ==>
      |r.value| == |es| && forall i :: 0 <= i < |es| ==> CanonicalPath(es[i]) == Some(r.value[i])
  {
    if es == [] then Success([])
    else match CanonicalPath(es[0])
      case None => Failure(PathUndefined)
      case Some(p) =>
        var rest := Paths(es[1..]);
        assert forall i :: 1 <= i < |es| ==> es[i] == es[1..][i - 1];
        if rest.Failure? then rest else Success([p] + rest.value)
  }

  /** GetFiles: the canonical paths of the stored history, one per entry and in order. */
  function GetFiles(files: map<string, Table>, path: Option<string>): (r: Result<seq<string>, StoreError>)
    ensures Load(files, path).Failure? ==> r == Failure(Load(files, path).error)
    ensures Load(files, path).Success? ==>
      var es := Load(files, path).value;
      && (r.Success? <==> forall i :: 0 <= i < |es| ==> CanonicalPath(es[i]).Some?)
      && (r.Success? ==> |r.value| == |es| && forall i :: 0 <= i < |es| ==> CanonicalPath(es[i]) == Some(r.value[i]))
      && (r.Failure? ==> r.error == PathUndefined)
  {
    match Load(files, path)
    case Failure(e) => Failure(e)
    case Success(es) => Paths(es)
  }

  /** The entry is the one DeleteFiles is asked to remove (`entryPath === targetPath`). */
  predicate Matches(e: Entry, target: string) {
    CanonicalPath(e) == Some(target)
  }

  /** The entry is one DeleteMultipleFiles is asked to remove (`targetPaths.includes(entryPath)`). */
  predicate MatchesAny(e: Entry, targets: seq<string>) {
    CanonicalPath(e).Some? && CanonicalPath(e).value in targets
  }

  /** The filter of DeleteFiles: the entries whose canonical path is not `target`. */
  function Without(es: seq<Entry>, target: string): (r: seq<Entry>)
    ensures |r| <= |es|
    ensures forall i :: 0 <= i < |r| ==> !Matches(r[i], target)
  {
    if es == [] then []
    else if Matches(es[0], target) then Without(es[1..], target)
    else [es[0]] + Without(es[1..], target)
  }

  /** The filter of DeleteMultipleFiles: the entries whose canonical path is not in `targets`. */
  function WithoutAny(es: seq<Entry>, targets: seq<string>): (r: seq<Entry>)
    ensures |r| <= |es|
    ensures forall i :: 0 <= i < |r| ==> !MatchesAny(r[i], targets)
  {
    if es == [] then []
    else if MatchesAny(es[0], targets) then WithoutAny(es[1..], targets)
    else [es[0]] + WithoutAny(es[1..], targets)
  }

  /** `a` is `b` with some elements left out, the others in their order. */
  predicate IsSubsequence<T(==)>(a: seq<T>, b: seq<T>)
    decreases |b|
  {
    if a == [] then true
    else if b == [] then false
    else if a[0] == b[0] then IsSubsequence(a[1..], b[1..])
    else IsSubsequence(a, b[1..])
  }

  lemma {:induction false} SubsequenceOfTail<T>(a: seq<T>, b: seq<T>)
    requires b != [] && IsSubsequence(a, b[1..])
    ensures IsSubsequence(a, b)
    decreases |b|, 0
  {
    if a != [] && a[0] == b[0] {
      SubsequenceDropFirst(a, b[1..]);
    }
  }

  lemma {:induction false} SubsequenceDropFirst<T>(a: seq<T>, c: seq<T>)
    requires a != [] && IsSubsequence(a, c)
    ensures IsSubsequence(a[1..], c)
    decreases |c|, 1
  {
    if a[0] == c[0] {
      SubsequenceOfTail(a[1..], c);
    } else {
      SubsequenceDropFirst(a, c[1..]);
      SubsequenceOfTail(a[1..], c);
    }
  }

  /** A list of paths of length one removes what the single path removes. */
  lemma {:induction false} WithoutAnySingleton(es: seq<Entry>, target: string)
    ensures WithoutAny(es, [target]) == Without(es, target)
  {
    if es != [] { WithoutAnySingleton(es[1..], target); }
  }

  /** DeleteMultipleFiles keeps exactly the entries whose canonical path is not in
      `targets`: unchanged, in their relative order, each as often as before. */
  lemma {:induction false} WithoutAnyKeepsExactly(es: seq<Entry>, targets: seq<string>)
    ensures IsSubsequence(WithoutAny(es, targets), es)
    ensures forall x :: multiset(WithoutAny(es, targets))[x] == if MatchesAny(x, targets) then 0 else multiset(es)[x]
  {
    if es != [] {
      WithoutAnyKeepsExactly(es[1..], targets);
      var rest := WithoutAny(es[1..], targets);
      assert es == [es[0]] + es[1..];
      if MatchesAny(es[0], targets) {
        SubsequenceOfTail(rest, es);
      } else {
        assert ([es[0]] + rest)[1..] == rest;
      }
    }
  }

  /** DeleteFiles keeps exactly the entries whose canonical path differs from `target`. */
  lemma WithoutKeepsExactly(es: seq<Entry>, target: string)
    ensures IsSubsequence(Without(es, target), es)
    ensures forall x :: multiset(Without(es, target))[x] == if Matches(x, target) then 0 else multiset(es)[x]
  {
    WithoutAnySingleton(es, target);
    WithoutAnyKeepsExactly(es, [target]);
    assert forall x :: MatchesAny(x, [target]) <==> Matches(x, target);
  }

  /** The filter shortens the history exactly when some entry matches; otherwise it is
      the identity. This is what "write only when something was removed" rests on. */
  lemma {:induction false} WithoutAnyShrinks(es: seq<Entry>, targets: seq<string>)
    ensures |WithoutAny(es, targets)| <= |es|
    ensures |WithoutAny(es, targets)| < |es| <==> exists i :: 0 <= i < |es| && MatchesAny(es[i], targets)
    ensures |WithoutAny(es, targets)| == |es| ==> WithoutAny(es, targets) == es
  {
    if es != [] {
      WithoutAnyShrinks(es[1..], targets);
      assert forall i :: 1 <= i < |es| ==> es[i] == es[1..][i - 1];
      assert forall i :: 0 <= i < |es| - 1 ==> es[1..][i] == es[i + 1];
      if |WithoutAny(es, targets)| == |es| { assert es == [es[0]] + es[1..]; }
    }
  }

  lemma WithoutShrinks(es: seq<Entry>, target: string)
    ensures |Without(es, target)| <= |es|
    ensures |Without(es, target)| < |es| <==> exists i :: 0 <= i < |es| && Matches(es[i], target)
    ensures |Without(es, target)| == |es| ==> Without(es, target) == es
  {
    WithoutAnySingleton(es, target);
    WithoutAnyShrinks(es, [target]);
    assert forall i :: 0 <= i < |es| ==> (MatchesAny(es[i], [target]) <==> Matches(es[i], target));
  }

  /** Deleting a list of paths at once is deleting them one after the other. */
  function DeleteEach(es: seq<Entry>, targets: seq<string>): seq<Entry> {
    if targets == [] then es
    else Without(DeleteEach(es, targets[..|targets| - 1]), targets[|targets| - 1])
  }

  lemma {:induction false} WithoutAnyAppend(es: seq<Entry>, targets: seq<string>, t: string)
    ensures WithoutAny(es, targets + [t]) == Without(WithoutAny(es, targets), t)
  {
    if es != [] {
      WithoutAnyAppend(es[1..], targets, t);
      assert MatchesAny(es[0], targets + [t]) <==> MatchesAny(es[0], targets) || Matches(es[0], t);
    }
  }

  lemma {:induction false} WithoutAnyIsDeleteEach(es: seq<Entry>, targets: seq<string>)
    ensures WithoutAny(es, targets) == DeleteEach(es, targets)
    decreases |targets|
  {
    if targets == [] {
      WithoutAnyNoTargets(es);
    } else {
      var init := targets[..|targets| - 1];
      WithoutAnyIsDeleteEach(es, init);
      WithoutAnyAppend(es, init, targets[|targets| - 1]);
      assert init + [targets[|targets| - 1]] == targets;
    }
  }

  lemma {:induction false} WithoutAnyNoTargets(es: seq<Entry>)
    ensures WithoutAny(es, []) == es
  {
    if es != [] { WithoutAnyNoTargets(es[1..]); }
  }

  /** A path that GetFiles lists names an entry DeleteFiles removes, so deleting a
      listed item always finds it while the history is unchanged. */
  lemma ListedPathIsDeletable(files: map<string, Table>, path: Option<string>, i: nat)
    requires GetFiles(files, path).Success? && i < |GetFiles(files, path).value|
    ensures Load(files, path).Success?
    ensures |Without(Load(files, path).value, GetFiles(files, path).value[i])| < |Load(files, path).value|
  {
    var es := Load(files, path).value;
    assert Matches(es[i], GetFiles(files, path).value[i]);
    WithoutShrinks(es, GetFiles(files, path).value[i]);
  }

  /** DeleteFiles: remove every entry whose canonical path is `targetPath`; store the
      rest under the same key and write the file only when something was removed. */
  method DeleteFiles(disk: Disk, dbPath: Option<string>, targetPath: string) returns (r: Result<bool, StoreError>)
    modifies disk
    ensures Load(old(disk.files), dbPath).Failure? ==>
      && r == Failure(Load(old(disk.files), dbPath).error)
      && disk.files == old(disk.files) && disk.writes == old(disk.writes)
    ensures Load(old(disk.files), dbPath).Success? ==>
      var es := Load(old(disk.files), dbPath).value;
      && r.Success?
      && (r.value <==> exists i :: 0 <= i < |es| && Matches(es[i], targetPath))
      && (r.value ==>
            && disk.files == old(disk.files)[dbPath.value := old(disk.files)[dbPath.value][HistoryKey := Recent(Without(es, targetPath))]]
            && disk.writes == old(disk.writes) + [dbPath.value])
      && (!r.value ==> disk.files == old(disk.files) && disk.writes == old(disk.writes))
  {
    var loaded := Load(disk.files, dbPath);
    if loaded.Failure? {
      return Failure(loaded.error);
    }
    var entries := loaded.value;
    var originalLength := |entries|;
    WithoutShrinks(entries, targetPath);
    entries := Without(entries, targetPath);
    if |entries| == originalLength {
      return Success(false);
    }
    var path := dbPath.value;
    var db := disk.files[path][HistoryKey := Recent(entries)];  // UPDATE ItemTable
    disk.files := disk.files[path := db];                        // writeFileSync(dbPath, db.export())
    disk.writes := disk.writes + [path];
    return Success(true);
  }

  /** DeleteMultipleFiles: remove every entry whose canonical path is in `targetPaths`;
      return how many were removed and write the file only when that is not zero. */
  method DeleteMultipleFiles(disk: Disk, dbPath: Option<string>, targetPaths: seq<string>) returns (r: Result<nat, StoreError>)
    modifies disk
    ensures Load(old(disk.files), dbPath).Failure? ==>
      && r == Failure(Load(old(disk.files), dbPath).error)
      && disk.files == old(disk.files) && disk.writes == old(disk.writes)
    ensures Load(old(disk.files), dbPath).Success? ==>
      var es := Load(old(disk.files), dbPath).value;
      && r.Success?
      && r.value == |es| - |WithoutAny(es, targetPaths)|
      && (r.value > 0 <==> exists i :: 0 <= i < |es| && MatchesAny(es[i], targetPaths))
      && (r.value > 0 ==>
            && disk.files == old(disk.files)[dbPath.value := old(disk.files)[dbPath.value][HistoryKey := Recent(WithoutAny(es, targetPaths))]]
            && disk.writes == old(disk.writes) + [dbPath.value])
      && (r.value == 0 ==> disk.files == old(disk.files) && disk.writes == old(disk.writes))
  {
    var loaded := Load(disk.files, dbPath);
    if loaded.Failure? {
      return Failure(loaded.error);
    }
    var entries := loaded.value;
    var originalLength := |entries|;
    WithoutAnyShrinks(entries, targetPaths);
    entries := WithoutAny(entries, targetPaths);
    var deletedCount := originalLength - |entries|;
    if deletedCount > 0 {
      var path := dbPath.value;
      var db := disk.files[path][HistoryKey := Recent(entries)];
      disk.files := disk.files[path := db];
      disk.writes := disk.writes + [path];
    }
    return Success(deletedCount);
  }
}
