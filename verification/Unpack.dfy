/** Unpacking an archive into a fresh directory (internal/automation/bundle/unpack.go).
    A path is the list of its clean name components below the destination. */
module Unpack {
  import opened Events

  type Path = seq<string>

  datatype Node = Dir | File(data: string)

  type Tree = map<Path, Node>

  /** The destination as MkdirTemp leaves it. */
  const ROOT: Tree := map[[] := Dir]

  datatype Failure = Exists | NoParent | NotADirectory | IsADirectory | BadEntry | ReadFailed

  function Parent(p: Path): Path
    requires p != []
  {
    p[..|p| - 1]
  }

  /** Every entry lies in a directory of the tree. */
  ghost predicate Closed(tree: Tree) {
    && [] in tree && tree[[]] == Dir
    && forall p {:trigger Parent(p)} :: p in tree && p != [] ==> Parent(p) in tree && tree[Parent(p)] == Dir
  }

  // ----- the file system calls -----

  /** A file stands on the way to `p`. */
  predicate FileAbove(tree: Tree, p: Path)
    decreases |p|
  {
    p != [] && ((Parent(p) in tree && tree[Parent(p)].File?) || FileAbove(tree, Parent(p)))
  }

  predicate InDir(tree: Tree, p: Path) {
    p != [] && Parent(p) in tree && tree[Parent(p)] == Dir
  }

  /** Why `p` cannot be reached. */
  function Lost(tree: Tree, p: Path): Failure {
    if FileAbove(tree, p) then NotADirectory else NoParent
  }

  function Mkdir(tree: Tree, p: Path): Result<Tree, Failure> {
    if p in tree then Err(Exists)
    else if !InDir(tree, p) then Err(Lost(tree, p))
    else Ok(tree[p := Dir])
  }

  function MkdirAll(tree: Tree, p: Path): Result<Tree, Failure>
    decreases |p|
  {
    if p in tree then (if tree[p] == Dir then Ok(tree) else Err(NotADirectory))
    else if p == [] then Err(NoParent)
    else
      match MkdirAll(tree, Parent(p))
      case Err(f) => Err(f)
      case Ok(t) => Mkdir(t, p)
  }

  /** os.Create followed by io.Copy. */
  function WriteFile(tree: Tree, p: Path, data: string, copies: bool): Result<Tree, Failure> {
    if p in tree && tree[p] == Dir then Err(IsADirectory)
    else if !InDir(tree, p) then Err(Lost(tree, p))
    else if !copies then Err(ReadFailed)
    else Ok(tree[p := File(data)])
  }

  // ----- the two formats -----

  datatype TarEntry = TarDir(p: Path) | TarFile(p: Path, data: string, copies: bool) | TarOther(p: Path)

  datatype ZipEntry = ZipDir(p: Path) | ZipFile(p: Path, data: string, opens: bool, copies: bool)

  function TarStep(tree: Tree, e: TarEntry): Result<Tree, Failure> {
    match e
    case TarDir(p) => Mkdir(tree, p)
    case TarFile(p, data, copies) => WriteFile(tree, p, data, copies)
    case TarOther(_) => Err(BadEntry)
  }

  function ZipStep(tree: Tree, e: ZipEntry): Result<Tree, Failure> {
    match e
    case ZipDir(p) => MkdirAll(tree, p)
    case ZipFile(p, data, opens, copies) =>
      match (if p == [] then Ok(tree) else MkdirAll(tree, Parent(p)))
      case Err(f) => Err(f)
      case Ok(t) => if opens then WriteFile(t, p, data, copies) else Err(ReadFailed)
  }

  function TarFold(tree: Tree, entries: seq<TarEntry>): Result<Tree, Failure>
    decreases |entries|
  {
    if entries == [] then Ok(tree)
    else
      match TarStep(tree, entries[0])
      case Err(f) => Err(f)
      case Ok(t) => TarFold(t, entries[1..])
  }

  function ZipFold(tree: Tree, entries: seq<ZipEntry>): Result<Tree, Failure>
    decreases |entries|
  {
    if entries == [] then Ok(tree)
    else
      match ZipStep(tree, entries[0])
      case Err(f) => Err(f)
      case Ok(t) => ZipFold(t, entries[1..])
  }

  // ----- every intermediate tree is closed -----

  lemma {:induction false} MkdirAllResult(tree: Tree, p: Path)
    requires Closed(tree) && MkdirAll(tree, p).Ok?
    ensures var t := MkdirAll(tree, p).value;
            && Closed(t) && p in t && t[p] == Dir
            && (forall q :: q in tree ==> q in t && t[q] == tree[q])
            && (forall q :: q in t && q !in tree ==> q <= p && t[q] == Dir)
    decreases |p|
  {
    if p !in tree && p != [] {
      MkdirAllResult(tree, Parent(p));
    }
  }

  lemma {:induction false} TarStepClosed(tree: Tree, e: TarEntry)
    requires Closed(tree) && TarStep(tree, e).Ok?
    ensures Closed(TarStep(tree, e).value)
  {
  }

  lemma {:induction false} ZipStepClosed(tree: Tree, e: ZipEntry)
    requires Closed(tree) && ZipStep(tree, e).Ok?
    ensures Closed(ZipStep(tree, e).value)
  {
    match e
    case ZipDir(p) => MkdirAllResult(tree, p);
    case ZipFile(p, _, _, _) => if p != [] { MkdirAllResult(tree, Parent(p)); }
  }

  /** The directories above a path of a closed tree belong to the tree. */
  lemma {:induction false} AboveIsIn(tree: Tree, p: Path, q: Path)
    requires Closed(tree) && p in tree && q <= p
    ensures q in tree && (q != p ==> tree[q] == Dir)
    decreases |p|
  {
    if q != p {
      assert q <= Parent(p);
      AboveIsIn(tree, Parent(p), q);
    }
  }

  // ----- which archives can be unpacked, and to what -----

  /** `entries` list directory `q`. */
  predicate TarLists(entries: seq<TarEntry>, q: Path) {
    q == [] || TarDir(q) in entries
  }

  /** Entry `k` is the last one that writes file `q`. */
  ghost predicate TarWrites(entries: seq<TarEntry>, k: nat, q: Path) {
    && k < |entries| && entries[k].TarFile? && entries[k].p == q
    && forall j :: k < j < |entries| ==> !(entries[j].TarFile? && entries[j].p == q)
  }

  ghost predicate TarNames(entries: seq<TarEntry>, q: Path) {
    exists k :: 0 <= k < |entries| && entries[k].TarFile? && entries[k].p == q
  }

  /** After the entries `before`, the entry can be unpacked: it is a directory that is new,
      or a regular file that can be read and is no directory, and its parent directory
      has been listed. */
  ghost predicate TarFits(before: seq<TarEntry>, e: TarEntry) {
    match e
    case TarDir(p) => p != [] && TarLists(before, p[..|p| - 1]) && !TarLists(before, p) && !TarNames(before, p)
    case TarFile(p, _, copies) => copies && p != [] && TarLists(before, p[..|p| - 1]) && !TarLists(before, p)
    case TarOther(_) => false
  }

  /** The directories of the tree are the listed ones, and every file holds the data of
      the last entry that wrote it. */
  ghost predicate TarTree(tree: Tree, entries: seq<TarEntry>) {
    && (forall q :: q in tree && tree[q] == Dir <==> TarLists(entries, q))
    && (forall k: nat, q :: TarWrites(entries, k, q) ==> q in tree && tree[q] == File(entries[k].data))
    && (forall q :: q in tree && tree[q].File? ==> TarNames(entries, q))
  }

  /** Every entry fits after those before it. */
  ghost predicate TarAllFit(entries: seq<TarEntry>) {
    forall i :: 0 <= i < |entries| ==> TarFits(entries[..i], entries[i])
  }

  /** Why an entry that does not fit is refused. */
  ghost function TarFailure(before: seq<TarEntry>, e: TarEntry): Failure {
    if e.TarOther? then BadEntry
    else if e.TarDir? && (TarLists(before, e.p) || TarNames(before, e.p)) then Exists
    else if e.TarFile? && TarLists(before, e.p) then IsADirectory
    else if exists q :: q < e.p && TarNames(before, q) then NotADirectory
    else if !TarLists(before, e.p[..|e.p| - 1]) then NoParent
    else ReadFailed
  }

  /** The first entry that does not fit, and why. */
  ghost predicate TarStuckAt(entries: seq<TarEntry>, k: nat, f: Failure) {
    && k < |entries| && TarAllFit(entries[..k]) && !TarFits(entries[..k], entries[k])
    && f == TarFailure(entries[..k], entries[k])
  }

  lemma {:induction false} TarWriteKept(before: seq<TarEntry>, e: TarEntry, k: nat, q: Path)
    requires TarWrites(before + [e], k, q)
    ensures k == |before| || TarWrites(before, k, q)
  {
    if k < |before| {
      var all := before + [e];
      assert forall j :: 0 <= j < |before| ==> all[j] == before[j];
    }
  }

  lemma {:induction false} TarNamesMore(before: seq<TarEntry>, e: TarEntry, q: Path)
    ensures TarNames(before + [e], q) <==> TarNames(before, q) || (e.TarFile? && e.p == q)
    ensures TarLists(before + [e], q) <==> TarLists(before, q) || e == TarDir(q)
  {
    var all := before + [e];
    assert all[|before|] == e;
    assert forall j :: 0 <= j < |before| ==> all[j] == before[j];
  }

  lemma {:induction false} LastWrite(entries: seq<TarEntry>, q: Path) returns (k: nat)
    requires TarNames(entries, q)
    ensures TarWrites(entries, k, q)
  {
    var n := |entries| - 1;
    if entries[n].TarFile? && entries[n].p == q {
      k := n;
    } else {
      k := LastWrite(entries[..n], q);
    }
  }

  lemma {:induction false} TarNamedIsThere(tree: Tree, before: seq<TarEntry>, q: Path)
    requires TarTree(tree, before)
    ensures TarNames(before, q) <==> q in tree && tree[q].File?
  {
    if TarNames(before, q) {
      var k := LastWrite(before, q);
    }
  }

  lemma {:induction false} FileAboveIff(tree: Tree, p: Path)
    ensures FileAbove(tree, p) <==> exists q :: q < p && q in tree && tree[q].File?
    decreases |p|
  {
    if p != [] {
      FileAboveIff(tree, Parent(p));
      assert Parent(p) < p;
      assert forall q :: q in tree ==> (q < p <==> q == Parent(p) || q < Parent(p));
    }
  }

  /** Below a directory of a closed tree there is no file on the way. */
  lemma {:induction false} NoFileAbove(tree: Tree, p: Path)
    requires Closed(tree) && InDir(tree, p)
    ensures !FileAbove(tree, p)
  {
    FileAboveIff(tree, p);
    forall q | q < p && q in tree
      ensures tree[q] == Dir
    {
      assert q <= Parent(p);
      AboveIsIn(tree, Parent(p), q);
    }
  }

  lemma {:induction false} TarNamesAbove(tree: Tree, before: seq<TarEntry>, p: Path)
    requires TarTree(tree, before)
    ensures FileAbove(tree, p) <==> exists q :: q < p && TarNames(before, q)
  {
    FileAboveIff(tree, p);
    forall q
      ensures TarNames(before, q) <==> q in tree && tree[q].File?
    {
      TarNamedIsThere(tree, before, q);
    }
  }

  lemma {:induction false} TarStepFits(tree: Tree, before: seq<TarEntry>, e: TarEntry)
    requires Closed(tree) && TarTree(tree, before)
    ensures TarStep(tree, e).Ok? <==> TarFits(before, e)
    ensures TarStep(tree, e).Err? ==> TarStep(tree, e).error == TarFailure(before, e)
  {
    TarNamedIsThere(tree, before, e.p);
    if e.p != [] {
      TarNamedIsThere(tree, before, Parent(e.p));
      TarNamesAbove(tree, before, e.p);
      if InDir(tree, e.p) { NoFileAbove(tree, e.p); }
    } else {
      assert TarLists(before, []);
    }
  }

  lemma {:induction false} TarStepTree(tree: Tree, before: seq<TarEntry>, e: TarEntry)
    requires TarTree(tree, before) && TarFits(before, e) && TarStep(tree, e).Ok?
    ensures TarTree(TarStep(tree, e).value, before + [e])
  {
    var t, all := TarStep(tree, e).value, before + [e];
    TarNamedIsThere(tree, before, e.p);
    forall q
      ensures q in t && t[q] == Dir <==> TarLists(all, q)
      ensures q in t && t[q].File? ==> TarNames(all, q)
    {
      TarNamesMore(before, e, q);
    }
    forall k: nat, q | TarWrites(all, k, q)
      ensures q in t && t[q] == File(all[k].data)
    {
      TarWriteKept(before, e, k, q);
      if k < |before| { assert all[k] == before[k] && all[|before|] == e; }
    }
  }

  lemma {:induction false} TarAllFitMore(entries: seq<TarEntry>, k: nat)
    requires k < |entries|
    ensures TarAllFit(entries[..k + 1]) <==> TarAllFit(entries[..k]) && TarFits(entries[..k], entries[k])
  {
    var more, less := entries[..k + 1], entries[..k];
    assert forall i :: 0 <= i < k ==> more[..i] == less[..i] && more[i] == less[i];
    assert more[..k] == less && more[k] == entries[k];
  }

  lemma {:induction false} TarStuckHere(entries: seq<TarEntry>, k: nat, f: Failure)
    requires k < |entries| && TarAllFit(entries[..k]) && !TarFits(entries[..k], entries[k])
    requires f == TarFailure(entries[..k], entries[k])
    ensures TarStuckAt(entries, k, f)
  {
  }

  /** One entry. */
  lemma {:induction false} TarFoldStep(tree: Tree, entries: seq<TarEntry>, k: nat)
    requires k < |entries| && Closed(tree) && TarTree(tree, entries[..k]) && TarAllFit(entries[..k])
    ensures var r := TarStep(tree, entries[k]);
            && (r.Ok? ==> Closed(r.value) && TarTree(r.value, entries[..k + 1]) && TarAllFit(entries[..k + 1]))
            && (r.Err? ==> TarStuckAt(entries, k, r.error))
  {
    var e := entries[k];
    assert entries[..k] + [e] == entries[..k + 1];
    TarStepFits(tree, entries[..k], e);
    TarAllFitMore(entries, k);
    if TarStep(tree, e).Ok? {
      TarStepClosed(tree, e);
      TarStepTree(tree, entries[..k], e);
    } else {
      TarStuckHere(entries, k, TarStep(tree, e).error);
    }
  }

  lemma {:induction false} TarFoldFits(tree: Tree, entries: seq<TarEntry>, k: nat) returns (at: nat)
    requires k <= |entries| && Closed(tree) && TarTree(tree, entries[..k]) && TarAllFit(entries[..k])
    ensures var r := TarFold(tree, entries[k..]);
            && (r.Ok? ==> TarTree(r.value, entries) && TarAllFit(entries))
            && (r.Err? ==> TarStuckAt(entries, at, r.error))
    decreases |entries| - k
  {
    if k == |entries| {
      assert entries[..k] == entries && entries[k..] == [];
      at := 0;
    } else {
      assert entries[k..][0] == entries[k] && entries[k..][1..] == entries[k + 1..];
      TarFoldStep(tree, entries, k);
      at := k;
      if TarStep(tree, entries[k]).Ok? {
        at := TarFoldFits(TarStep(tree, entries[k]).value, entries, k + 1);
      }
    }
  }

  /** Tar unpacking builds the tree of the listing if every entry fits after those before
      it, and otherwise fails at the first one that does not. */
  lemma {:induction false} TarUnpacks(entries: seq<TarEntry>) returns (at: nat)
    ensures var r := TarFold(ROOT, entries);
            && (r.Ok? <==> TarAllFit(entries))
            && (r.Ok? ==> TarTree(r.value, entries))
            && (r.Err? ==> TarStuckAt(entries, at, r.error))
  {
    assert TarTree(ROOT, entries[..0]);
    assert entries[0..] == entries;
    at := TarFoldFits(ROOT, entries, 0);
  }

  /** A zip entry brings its directory, or all directories above its file. */
  predicate Brings(e: ZipEntry, q: Path) {
    match e
    case ZipDir(p) => q <= p
    case ZipFile(p, _, _, _) => q < p
  }

  ghost predicate ZipLists(entries: seq<ZipEntry>, q: Path) {
    q == [] || exists k :: 0 <= k < |entries| && Brings(entries[k], q)
  }

  ghost predicate ZipWrites(entries: seq<ZipEntry>, k: nat, q: Path) {
    && k < |entries| && entries[k].ZipFile? && entries[k].p == q
    && forall j :: k < j < |entries| ==> !(entries[j].ZipFile? && entries[j].p == q)
  }

  ghost predicate ZipNames(entries: seq<ZipEntry>, q: Path) {
    exists k :: 0 <= k < |entries| && entries[k].ZipFile? && entries[k].p == q
  }

  /** None of the directories that the entry brings has been written as a file. */
  ghost predicate WayFree(before: seq<ZipEntry>, e: ZipEntry) {
    forall q :: Brings(e, q) ==> !ZipNames(before, q)
  }

  /** After the entries `before`, the entry can be unpacked: nothing above it is a file,
      and if it is a file, it can be opened and read and is no directory. */
  ghost predicate ZipFits(before: seq<ZipEntry>, e: ZipEntry) {
    WayFree(before, e) && (e.ZipFile? ==> e.opens && e.copies && !ZipLists(before, e.p))
  }

  ghost predicate ZipTree(tree: Tree, entries: seq<ZipEntry>) {
    && (forall q :: q in tree && tree[q] == Dir <==> ZipLists(entries, q))
    && (forall k: nat, q :: ZipWrites(entries, k, q) ==> q in tree && tree[q] == File(entries[k].data))
    && (forall q :: q in tree && tree[q].File? ==> ZipNames(entries, q))
  }

  ghost predicate ZipAllFit(entries: seq<ZipEntry>) {
    forall i :: 0 <= i < |entries| ==> ZipFits(entries[..i], entries[i])
  }

  /** Why an entry that does not fit is refused. */
  ghost function ZipFailure(before: seq<ZipEntry>, e: ZipEntry): Failure {
    if !WayFree(before, e) then NotADirectory
    else if e.ZipFile? && e.opens && ZipLists(before, e.p) then IsADirectory
    else ReadFailed
  }

  ghost predicate ZipStuckAt(entries: seq<ZipEntry>, k: nat, f: Failure) {
    && k < |entries| && ZipAllFit(entries[..k]) && !ZipFits(entries[..k], entries[k])
    && f == ZipFailure(entries[..k], entries[k])
  }

  lemma {:induction false} ZipWriteKept(before: seq<ZipEntry>, e: ZipEntry, k: nat, q: Path)
    requires ZipWrites(before + [e], k, q)
    ensures k == |before| || ZipWrites(before, k, q)
  {
    if k < |before| {
      var all := before + [e];
      assert forall j :: 0 <= j < |before| ==> all[j] == before[j];
    }
  }

  lemma {:induction false} ZipNamesMore(before: seq<ZipEntry>, e: ZipEntry, q: Path)
    ensures ZipNames(before + [e], q) <==> ZipNames(before, q) || (e.ZipFile? && e.p == q)
    ensures ZipLists(before + [e], q) <==> ZipLists(before, q) || Brings(e, q)
  {
    var all := before + [e];
    assert all[|before|] == e;
    assert forall j :: 0 <= j < |before| ==> all[j] == before[j];
  }

  lemma {:induction false} LastZipWrite(entries: seq<ZipEntry>, q: Path) returns (k: nat)
    requires ZipNames(entries, q)
    ensures ZipWrites(entries, k, q)
  {
    var n := |entries| - 1;
    if entries[n].ZipFile? && entries[n].p == q {
      k := n;
    } else {
      k := LastZipWrite(entries[..n], q);
    }
  }

  lemma {:induction false} ZipNamedIsThere(tree: Tree, before: seq<ZipEntry>, q: Path)
    requires ZipTree(tree, before)
    ensures ZipNames(before, q) <==> q in tree && tree[q].File?
  {
    if ZipNames(before, q) {
      var k := LastZipWrite(before, q);
    }
  }

  /** MkdirAll succeeds exactly when neither the path nor anything above it is a file. */
  lemma {:induction false} MkdirAllFits(tree: Tree, p: Path)
    requires Closed(tree)
    ensures MkdirAll(tree, p).Ok? <==> forall q :: q <= p && q in tree ==> tree[q] == Dir
    ensures MkdirAll(tree, p).Err? ==> MkdirAll(tree, p).error == NotADirectory
    decreases |p|
  {
    if p in tree {
      forall q | q <= p && q in tree && tree[p] == Dir
        ensures tree[q] == Dir
      {
        AboveIsIn(tree, p, q);
      }
    } else {
      MkdirAllFits(tree, Parent(p));
      assert forall q :: q in tree ==> (q <= p <==> q <= Parent(p) || q == p);
      if MkdirAll(tree, Parent(p)).Ok? {
        MkdirAllResult(tree, Parent(p));
        assert !(p <= Parent(p));
      }
    }
  }

  /** And then it adds exactly the directories on the way. */
  lemma {:induction false} MkdirAllAdds(tree: Tree, p: Path, q: Path)
    requires Closed(tree) && MkdirAll(tree, p).Ok?
    ensures var t := MkdirAll(tree, p).value;
            && Closed(t) && (q in t <==> q in tree || q <= p)
            && (q in t ==> t[q] == if q in tree then tree[q] else Dir)
  {
    MkdirAllResult(tree, p);
    if q <= p { AboveIsIn(MkdirAll(tree, p).value, p, q); }
  }

  lemma {:induction false} WayIsFree(tree: Tree, before: seq<ZipEntry>, e: ZipEntry)
    requires Closed(tree) && ZipTree(tree, before)
    ensures WayFree(before, e) <==> forall q :: Brings(e, q) && q in tree ==> tree[q] == Dir
  {
    forall q
      ensures ZipNames(before, q) <==> q in tree && tree[q].File?
    {
      ZipNamedIsThere(tree, before, q);
    }
  }

  lemma {:induction false} ZipDirFits(tree: Tree, before: seq<ZipEntry>, e: ZipEntry)
    requires Closed(tree) && ZipTree(tree, before) && e.ZipDir?
    ensures ZipStep(tree, e).Ok? <==> ZipFits(before, e)
    ensures ZipStep(tree, e).Err? ==> ZipStep(tree, e).error == ZipFailure(before, e)
  {
    WayIsFree(tree, before, e);
    MkdirAllFits(tree, e.p);
    assert forall q :: Brings(e, q) <==> q <= e.p;
  }

  lemma {:induction false} AboveFile(e: ZipEntry)
    requires e.ZipFile? && e.p != []
    ensures forall q :: Brings(e, q) <==> q <= Parent(e.p)
  {
  }

  lemma {:induction false} ZipFileFits(tree: Tree, before: seq<ZipEntry>, e: ZipEntry)
    requires Closed(tree) && ZipTree(tree, before) && e.ZipFile? && e.p != []
    ensures ZipStep(tree, e).Ok? <==> ZipFits(before, e)
    ensures ZipStep(tree, e).Err? ==> ZipStep(tree, e).error == ZipFailure(before, e)
  {
    WayIsFree(tree, before, e);
    AboveFile(e);
    MkdirAllFits(tree, Parent(e.p));
    assert WayFree(before, e) <==> WayFree(before, e.(opens := true, copies := true));
    if MkdirAll(tree, Parent(e.p)).Ok? {
      MkdirAllAdds(tree, Parent(e.p), e.p);
      MkdirAllAdds(tree, Parent(e.p), Parent(e.p));
    }
  }

  lemma {:induction false} ZipStepFits(tree: Tree, before: seq<ZipEntry>, e: ZipEntry)
    requires Closed(tree) && ZipTree(tree, before)
    ensures ZipStep(tree, e).Ok? <==> ZipFits(before, e)
    ensures ZipStep(tree, e).Err? ==> ZipStep(tree, e).error == ZipFailure(before, e)
  {
    if e.ZipDir? {
      ZipDirFits(tree, before, e);
    } else if e.p != [] {
      ZipFileFits(tree, before, e);
    } else {
      assert WayFree(before, e);
    }
  }

  /** Where each path of the next tree comes from. */
  lemma {:induction false} ZipStepAt(tree: Tree, e: ZipEntry, q: Path)
    requires Closed(tree) && ZipStep(tree, e).Ok?
    ensures var t := ZipStep(tree, e).value;
            && (q in t <==> q in tree || Brings(e, q) || q == e.p)
            && (q in t ==> t[q] == if e.ZipFile? && q == e.p then File(e.data) else if q in tree then tree[q] else Dir)
  {
    if e.ZipDir? {
      MkdirAllAdds(tree, e.p, q);
    } else {
      AboveFile(e);
      MkdirAllAdds(tree, Parent(e.p), q);
    }
  }

  lemma {:induction false} ZipStepTree(tree: Tree, before: seq<ZipEntry>, e: ZipEntry)
    requires Closed(tree) && ZipTree(tree, before) && ZipFits(before, e) && ZipStep(tree, e).Ok?
    ensures ZipTree(ZipStep(tree, e).value, before + [e])
  {
    var t, all := ZipStep(tree, e).value, before + [e];
    WayIsFree(tree, before, e);
    forall q
      ensures q in t && t[q] == Dir <==> ZipLists(all, q)
      ensures q in t && t[q].File? ==> ZipNames(all, q)
    {
      ZipNamesMore(before, e, q);
      ZipStepAt(tree, e, q);
    }
    forall k: nat, q | ZipWrites(all, k, q)
      ensures q in t && t[q] == File(all[k].data)
    {
      ZipWriteKept(before, e, k, q);
      ZipStepAt(tree, e, q);
      if k < |before| { assert all[k] == before[k] && all[|before|] == e; }
    }
  }

  lemma {:induction false} ZipAllFitMore(entries: seq<ZipEntry>, k: nat)
    requires k < |entries|
    ensures ZipAllFit(entries[..k + 1]) <==> ZipAllFit(entries[..k]) && ZipFits(entries[..k], entries[k])
  {
    var more, less := entries[..k + 1], entries[..k];
    assert forall i :: 0 <= i < k ==> more[..i] == less[..i] && more[i] == less[i];
    assert more[..k] == less && more[k] == entries[k];
  }

  lemma {:induction false} ZipStuckHere(entries: seq<ZipEntry>, k: nat, f: Failure)
    requires k < |entries| && ZipAllFit(entries[..k]) && !ZipFits(entries[..k], entries[k])
    requires f == ZipFailure(entries[..k], entries[k])
    ensures ZipStuckAt(entries, k, f)
  {
  }

  /** One entry. */
  lemma {:induction false} ZipFoldStep(tree: Tree, entries: seq<ZipEntry>, k: nat)
    requires k < |entries| && Closed(tree) && ZipTree(tree, entries[..k]) && ZipAllFit(entries[..k])
    ensures var r := ZipStep(tree, entries[k]);
            && (r.Ok? ==> Closed(r.value) && ZipTree(r.value, entries[..k + 1]) && ZipAllFit(entries[..k + 1]))
            && (r.Err? ==> ZipStuckAt(entries, k, r.error))
  {
    var e := entries[k];
    assert entries[..k] + [e] == entries[..k + 1];
    ZipStepFits(tree, entries[..k], e);
    ZipAllFitMore(entries, k);
    if ZipStep(tree, e).Ok? {
      ZipStepClosed(tree, e);
      ZipStepTree(tree, entries[..k], e);
    } else {
      ZipStuckHere(entries, k, ZipStep(tree, e).error);
    }
  }

  lemma {:induction false} ZipFoldFits(tree: Tree, entries: seq<ZipEntry>, k: nat) returns (at: nat)
    requires k <= |entries| && Closed(tree) && ZipTree(tree, entries[..k]) && ZipAllFit(entries[..k])
    ensures var r := ZipFold(tree, entries[k..]);
            && (r.Ok? ==> ZipTree(r.value, entries) && ZipAllFit(entries))
            && (r.Err? ==> ZipStuckAt(entries, at, r.error))
    decreases |entries| - k
  {
    if k == |entries| {
      assert entries[..k] == entries && entries[k..] == [];
      at := 0;
    } else {
      assert entries[k..][0] == entries[k] && entries[k..][1..] == entries[k + 1..];
      ZipFoldStep(tree, entries, k);
      at := k;
      if ZipStep(tree, entries[k]).Ok? {
        at := ZipFoldFits(ZipStep(tree, entries[k]).value, entries, k + 1);
      }
    }
  }

  /** The same for zip: every entry must fit after those before it. */
  lemma {:induction false} ZipUnpacks(entries: seq<ZipEntry>) returns (at: nat)
    ensures var r := ZipFold(ROOT, entries);
            && (r.Ok? <==> ZipAllFit(entries))
            && (r.Ok? ==> ZipTree(r.value, entries))
            && (r.Err? ==> ZipStuckAt(entries, at, r.error))
  {
    assert ZipTree(ROOT, entries[..0]);
    assert entries[0..] == entries;
    at := ZipFoldFits(ROOT, entries, 0);
  }

  // ----- the loops, on a disk of temporary directories -----

  class Disk {
    var dirs: map<string, Tree>

    constructor ()
      ensures dirs == map[]
    {
      dirs := map[];
    }

    /** The loop over the entries of a tar archive. */
    method ReadTar(dest: string, entries: seq<TarEntry>) returns (err: Option<Failure>)
      requires dest in dirs && dirs[dest] == ROOT
      modifies this
      ensures dest in dirs && dirs - {dest} == old(dirs) - {dest} && Closed(dirs[dest])
      ensures TarFold(ROOT, entries) == match err case None => Ok(dirs[dest]) case Some(f) => Err(f)
    {
      err := None;
      var i := 0;
      while i < |entries| && err == None
        invariant 0 <= i <= |entries|
        invariant dest in dirs && dirs - {dest} == old(dirs) - {dest} && Closed(dirs[dest])
        invariant err == None ==> TarFold(ROOT, entries) == TarFold(dirs[dest], entries[i..])
        invariant err != None ==> TarFold(ROOT, entries) == Err(err.value) && i < |entries|
        decreases |entries| - i, err == None
      {
        match TarStep(dirs[dest], entries[i])
        case Err(f) => err := Some(f);
        case Ok(t) =>
          TarStepClosed(dirs[dest], entries[i]);
          assert entries[i..][1..] == entries[i + 1..];
          dirs := dirs[dest := t];
          i := i + 1;
      }
    }

    /** `dest` is the unused name MkdirTemp picked; `clean` says that the reader ended
        with io.EOF. Succeeds if every entry fits after those before it, with the tree of
        the listing; otherwise it fails at the first one that does not fit, and nothing
        is left behind. */
    method UnpackTar(dest: string, entries: seq<TarEntry>, clean: bool) returns (r: Result<string, Failure>)
      requires dest !in dirs
      modifies this
      ensures r.Ok? <==> clean && TarAllFit(entries)
      ensures r.Ok? ==> r.value == dest && dest in dirs && dirs - {dest} == old(dirs)
                        && TarTree(dirs[dest], entries) && Closed(dirs[dest])
                        && TarFold(ROOT, entries) == Ok(dirs[dest])
      ensures r.Err? ==> dirs == old(dirs) && ((exists k :: TarStuckAt(entries, k, r.error)) ||
                                               (TarFold(ROOT, entries).Ok? && !clean && r.error == ReadFailed))
    {
      dirs := dirs[dest := ROOT];
      var err := ReadTar(dest, entries);
      ghost var at := TarUnpacks(entries);
      if err == None && !clean { err := Some(ReadFailed); }
      if err != None {
        dirs := dirs - {dest};
        return Err(err.value);
      }
      r := Ok(dest);
    }

    /** The loop over the files of a zip archive. */
    method ReadZip(dest: string, entries: seq<ZipEntry>) returns (err: Option<Failure>)
      requires dest in dirs && dirs[dest] == ROOT
      modifies this
      ensures dest in dirs && dirs - {dest} == old(dirs) - {dest} && Closed(dirs[dest])
      ensures ZipFold(ROOT, entries) == match err case None => Ok(dirs[dest]) case Some(f) => Err(f)
    {
      var i := 0;
      while i < |entries|
        invariant 0 <= i <= |entries|
        invariant dest in dirs && dirs - {dest} == old(dirs) - {dest} && Closed(dirs[dest])
        invariant ZipFold(ROOT, entries) == ZipFold(dirs[dest], entries[i..])
      {
        match ZipStep(dirs[dest], entries[i])
        case Err(f) => return Some(f);
        case Ok(t) =>
          ZipStepClosed(dirs[dest], entries[i]);
          assert entries[i..][1..] == entries[i + 1..];
          dirs := dirs[dest := t];
          i := i + 1;
      }
      err := None;
    }

    /** The same for zip; an archive that can be opened at all ends cleanly. */
    method UnpackZip(dest: string, entries: seq<ZipEntry>) returns (r: Result<string, Failure>)
      requires dest !in dirs
      modifies this
      ensures r.Ok? <==> ZipAllFit(entries)
      ensures r.Ok? ==> r.value == dest && dest in dirs && dirs - {dest} == old(dirs)
                        && ZipTree(dirs[dest], entries) && Closed(dirs[dest])
                        && ZipFold(ROOT, entries) == Ok(dirs[dest])
      ensures r.Err? ==> dirs == old(dirs) && exists k :: ZipStuckAt(entries, k, r.error)
    {
      dirs := dirs[dest := ROOT];
      var err := ReadZip(dest, entries);
      ghost var at := ZipUnpacks(entries);
      if err != None {
        dirs := dirs - {dest};
        return Err(err.value);
      }
      r := Ok(dest);
    }
  }

  // ----- the same listing in both formats -----

  datatype Item = ItemDir(p: Path) | ItemFile(p: Path, data: string)

  function AsTar(items: seq<Item>): seq<TarEntry> {
    seq(|items|, i requires 0 <= i < |items| =>
      match items[i] case ItemDir(p) => TarDir(p) case ItemFile(p, data) => TarFile(p, data, true))
  }

  function AsZip(items: seq<Item>): seq<ZipEntry> {
    seq(|items|, i requires 0 <= i < |items| =>
      match items[i] case ItemDir(p) => ZipDir(p) case ItemFile(p, data) => ZipFile(p, data, true, true))
  }

  /** Each item finds its parent directory in place, and no directory is listed that
      is there already. */
  ghost predicate Strict(tree: Tree, items: seq<Item>)
    decreases |items|
  {
    items != [] ==>
      var p := items[0].p;
      && p != [] && Parent(p) in tree && (items[0].ItemDir? ==> p !in tree)
      && (ZipStep(tree, AsZip(items)[0]).Ok? ==> Strict(ZipStep(tree, AsZip(items)[0]).value, items[1..]))
  }

  lemma {:induction false} TailEntries(items: seq<Item>)
    requires items != []
    ensures AsTar(items)[1..] == AsTar(items[1..])
    ensures AsZip(items)[1..] == AsZip(items[1..])
  {
  }

  lemma {:induction false} SameStep(tree: Tree, it: Item)
    requires Closed(tree)
    ensures var tar, zip := TarStep(tree, AsTar([it])[0]), ZipStep(tree, AsZip([it])[0]);
            && (tar.Ok? ==> zip == tar)
            && (tar.Ok? <==> zip.Ok? && it.p != [] && Parent(it.p) in tree && (it.ItemDir? ==> it.p !in tree))
  {
    if it.p != [] && Parent(it.p) in tree {
      assert MkdirAll(tree, Parent(it.p)) == if tree[Parent(it.p)] == Dir then Ok(tree) else Err(NotADirectory);
    }
  }

  /** On every listing: tar unpacking succeeds exactly when zip unpacking does and the
      listing is strict, and then both build the same tree. */
  lemma {:induction false} TarIsStrictZip(tree: Tree, items: seq<Item>)
    requires Closed(tree)
    ensures TarFold(tree, AsTar(items)).Ok? <==> ZipFold(tree, AsZip(items)).Ok? && Strict(tree, items)
    ensures TarFold(tree, AsTar(items)).Ok? ==> ZipFold(tree, AsZip(items)) == TarFold(tree, AsTar(items))
    decreases |items|
  {
    if items != [] {
      TailEntries(items);
      SameStep(tree, items[0]);
      assert AsTar(items)[0] == AsTar([items[0]])[0] && AsZip(items)[0] == AsZip([items[0]])[0];
      var zip := ZipStep(tree, AsZip(items)[0]);
      if zip.Ok? {
        ZipStepClosed(tree, AsZip(items)[0]);
        TarIsStrictZip(zip.value, items[1..]);
      }
    }
  }

  // ----- a listing of a tree -----

  function NodeOf(it: Item): Node {
    match it case ItemDir(_) => Dir case ItemFile(_, data) => File(data)
  }

  ghost predicate Within(items: seq<Item>, full: Tree) {
    forall i :: 0 <= i < |items| ==> items[i].p != [] && items[i].p in full && full[items[i].p] == NodeOf(items[i])
  }

  ghost predicate Covered(items: seq<Item>, p: Path) {
    exists i :: 0 <= i < |items| && p <= items[i].p
  }

  /** Every path of the tree is listed, or lies above a listed one. */
  ghost predicate Covers(items: seq<Item>, full: Tree) {
    forall p {:trigger Covered(items, p)} :: p in full && p != [] ==> Covered(items, p)
  }

  ghost predicate Part(tree: Tree, full: Tree) {
    forall p :: p in tree ==> p in full && full[p] == tree[p]
  }

  lemma {:induction false} MkdirAllWithin(tree: Tree, full: Tree, p: Path)
    requires Closed(tree) && Closed(full) && Part(tree, full) && p in full && full[p] == Dir
    ensures MkdirAll(tree, p).Ok? && Part(MkdirAll(tree, p).value, full) && Closed(MkdirAll(tree, p).value)
    ensures p in MkdirAll(tree, p).value && forall q :: q in tree ==> q in MkdirAll(tree, p).value
    decreases |p|
  {
    if p !in tree {
      MkdirAllWithin(tree, full, Parent(p));
      var t := MkdirAll(tree, Parent(p)).value;
      MkdirAllResult(tree, Parent(p));
      assert !(p <= Parent(p));
      assert p !in t;
    }
  }

  lemma {:induction false} ZipItemWithin(tree: Tree, full: Tree, it: Item)
    requires Closed(tree) && Closed(full) && Part(tree, full) && Within([it], full)
    ensures var zip := ZipStep(tree, AsZip([it])[0]);
            && zip.Ok? && Part(zip.value, full) && Closed(zip.value) && it.p in zip.value
            && forall q :: q in tree ==> q in zip.value
  {
    assert [it][0] == it;
    match it
    case ItemDir(p) => MkdirAllWithin(tree, full, p);
    case ItemFile(p, data) =>
      MkdirAllWithin(tree, full, Parent(p));
      ZipStepClosed(tree, AsZip([it])[0]);
  }

  lemma {:induction false} ZipWithin(tree: Tree, full: Tree, items: seq<Item>)
    requires Closed(tree) && Closed(full) && Part(tree, full) && Within(items, full)
    ensures var zip := ZipFold(tree, AsZip(items));
            && zip.Ok? && Part(zip.value, full) && Closed(zip.value)
            && (forall q :: q in tree ==> q in zip.value)
            && (forall i :: 0 <= i < |items| ==> items[i].p in zip.value)
    decreases |items|
  {
    if items != [] {
      TailEntries(items);
      assert AsZip(items)[0] == AsZip([items[0]])[0];
      ZipItemWithin(tree, full, items[0]);
      ZipWithin(ZipStep(tree, AsZip(items)[0]).value, full, items[1..]);
      forall i | 0 <= i < |items|
        ensures items[i].p in ZipFold(tree, AsZip(items)).value
      {
        if i > 0 { assert items[i] == items[1..][i - 1]; }
      }
    }
  }

  lemma {:induction false} RootIsClosed(full: Tree)
    requires Closed(full)
    ensures Closed(ROOT) && Part(ROOT, full)
  {
  }

  lemma {:induction false} CoveredIsAll(tree: Tree, full: Tree, items: seq<Item>)
    requires Closed(tree) && Part(tree, full) && Covers(items, full)
    requires forall i :: 0 <= i < |items| ==> items[i].p in tree
    ensures tree == full
  {
    forall p | p in full
      ensures p in tree
    {
      if p != [] {
        assert Covered(items, p);
        var i :| 0 <= i < |items| && p <= items[i].p;
        AboveIsIn(tree, items[i].p, p);
      }
    }
    assert tree.Keys == full.Keys;
  }

  /** Zip unpacking rebuilds a tree from any listing of it: the order, repeated items
      and unlisted intermediate directories make no difference. */
  lemma {:induction false} ZipRebuilds(full: Tree, items: seq<Item>)
    requires Closed(full) && Within(items, full) && Covers(items, full)
    ensures ZipFold(ROOT, AsZip(items)) == Ok(full)
  {
    RootIsClosed(full);
    ZipWithin(ROOT, full, items);
    CoveredIsAll(ZipFold(ROOT, AsZip(items)).value, full, items);
  }

  /** Parents come first, and nothing is listed twice. */
  ghost predicate ParentsFirst(items: seq<Item>) {
    && (forall i :: 0 <= i < |items| && |items[i].p| > 1 ==> exists j :: 0 <= j < i && items[j].p == Parent(items[i].p))
    && (forall i, j :: 0 <= i < j < |items| ==> items[i].p != items[j].p)
  }

  ghost predicate Listed(items: seq<Item>, k: nat, p: Path)
    requires k <= |items|
  {
    exists j :: 0 <= j < k && items[j].p == p
  }

  lemma {:induction false} ListedStep(items: seq<Item>, k: nat, p: Path)
    requires k < |items|
    ensures Listed(items, k + 1, p) <==> Listed(items, k, p) || p == items[k].p
  {
    if Listed(items, k + 1, p) {
      var j :| 0 <= j < k + 1 && items[j].p == p;
      assert j < k || p == items[k].p;
    }
    if p == items[k].p {
      assert items[k].p == p;
    }
  }

  /** What has been unpacked after the first `k` items. */
  ghost function Prefix(full: Tree, items: seq<Item>, k: nat): Tree
    requires k <= |items|
  {
    map p | p in full && (p == [] || Listed(items, k, p)) :: full[p]
  }

  lemma {:induction false} ParentThere(full: Tree, items: seq<Item>, k: nat)
    requires Closed(full) && Within(items, full) && ParentsFirst(items) && k < |items|
    ensures Parent(items[k].p) in Prefix(full, items, k)
  {
    var it := items[k];
    if |it.p| > 1 {
      var j :| 0 <= j < k && items[j].p == Parent(it.p);
      assert Listed(items, k, Parent(it.p));
    } else {
      assert Parent(it.p) == [];
    }
  }

  lemma {:induction false} PrefixStep(full: Tree, items: seq<Item>, k: nat)
    requires Closed(full) && Within(items, full) && ParentsFirst(items) && k < |items|
    ensures TarStep(Prefix(full, items, k), AsTar([items[k]])[0]) == Ok(Prefix(full, items, k + 1))
  {
    var tree, it := Prefix(full, items, k), items[k];
    assert it.p !in tree;
    ParentThere(full, items, k);
    forall p
      ensures p in Prefix(full, items, k + 1) <==> p in tree || p == it.p
    {
      ListedStep(items, k, p);
    }
    assert Prefix(full, items, k + 1) == tree[it.p := NodeOf(it)];
  }

  lemma {:induction false} TarFrom(full: Tree, items: seq<Item>, k: nat)
    requires Closed(full) && Within(items, full) && ParentsFirst(items) && k <= |items|
    ensures TarFold(Prefix(full, items, k), AsTar(items[k..])) == Ok(Prefix(full, items, |items|))
    decreases |items| - k
  {
    if k < |items| {
      PrefixStep(full, items, k);
      TailEntries(items[k..]);
      assert items[k..][1..] == items[k + 1..];
      assert AsTar(items[k..])[0] == AsTar([items[k]])[0];
      TarFrom(full, items, k + 1);
    } else {
      assert items[k..] == [];
    }
  }

  lemma {:induction false} NothingYet(full: Tree, items: seq<Item>)
    requires Closed(full)
    ensures Prefix(full, items, 0) == ROOT
  {
    var t := Prefix(full, items, 0);
    forall p
      ensures p in t <==> p in ROOT
    {
      assert p in t <==> p == [];
    }
  }

  /** For a clean listing with the parents first, both formats rebuild the same tree. */
  lemma {:induction false} BothRebuild(full: Tree, items: seq<Item>)
    requires Closed(full) && Within(items, full) && Covers(items, full) && ParentsFirst(items)
    ensures TarFold(ROOT, AsTar(items)) == Ok(full) && ZipFold(ROOT, AsZip(items)) == Ok(full)
  {
    ZipRebuilds(full, items);
    RootIsClosed(full);
    NothingYet(full, items);
    TarFrom(full, items, 0);
    assert items[0..] == items;
    TarIsStrictZip(ROOT, items);
  }
}
