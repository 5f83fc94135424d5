/** A memory store mounted as files: written out before a turn, read back after it. */
module MemoryMount {
  import opened Paths
  import opened Text

  /** A stored memory; a large one is kept in a blob that listings do not include. */
  datatype Row = Inline(text: string) | Blob(text: string)

  /** Memories by path, and files by path relative to the mount. */
  type Rows = map<string, Row>
  type Disk = map<string, string>

  /** Where a memory's file lies: in the mount, under a name relative to it, or outside,
      where writing works or not. */
  datatype Place = At(file: string) | Elsewhere(works: bool)

  /** How a deployment keeps memories: with a blob store or not, what is too large to
      be inline, what is accepted at all, which texts count as blank, and where names
      lead that climb out of the mount. */
  datatype Repo = Repo(
    blobs: bool, large: string -> bool, fits: string -> bool, blank: string -> bool, beyond: string -> Place)

  /** Names in the mount are clean; "" is the mount itself. */
  ghost predicate Tidy(repo: Repo) {
    forall rel :: repo.beyond(rel).At? ==> repo.beyond(rel).file == "" || CleanName(repo.beyond(rel).file)
  }

  /** What GetMemory gives; a blob cannot be read without a blob store. */
  function Fetched(repo: Repo, row: Row): string { if row.Blob? && !repo.blobs then "" else row.text }

  function Persist(repo: Repo, text: string): Row {
    if repo.blobs && repo.large(text) then Blob(text) else Inline(text)
  }

  /** strings.TrimPrefix(path, "/") */
  function Rel(path: string): string { if path != "" && path[0] == '/' then path[1..] else path }

  /** filepath.Join of the mount's directory and the memory's name. */
  function PlaceOf(repo: Repo, path: string): Place {
    var names := Walk(Segments(Rel(path)));
    if names.Some? then At(Joined(names.value)) else repo.beyond(Rel(path))
  }

  /** The memory's file is the one of that name. */
  predicate FileIs(repo: Repo, path: string, f: string) { PlaceOf(repo, path) == At(f) }

  predicate IsDir(disk: Disk, rel: string) { exists f :: f in disk && rel + "/" <= f }

  /** A directory on the way to `rel` is a file. */
  predicate Blocked(disk: Disk, rel: string) { exists f :: f in disk && f + "/" <= rel }

  // ---- writing out ------------------------------------------------------------------

  /** Existing files stay; new ones hold what the store has. */
  ghost predicate Extends(repo: Repo, rows: Rows, disk: Disk, disk': Disk) {
    && (forall f | f in disk :: f in disk' && disk'[f] == disk[f])
    && forall f | f in disk' && f !in disk ::
         && f != "" && !repo.blank(disk'[f])
         && exists path :: path in rows && FileIs(repo, path, f) && disk'[f] == Fetched(repo, rows[path])
  }

  predicate Wanted(repo: Repo, rows: Rows, path: string)
    requires path in rows
  {
    PlaceOf(repo, path).At? && PlaceOf(repo, path).file != "" && !repo.blank(Fetched(repo, rows[path]))
  }

  /** A materialisation without error: every memory has its file, or a directory stands
      in its place; no new file stands where a directory is. */
  ghost predicate Materialized(repo: Repo, rows: Rows, disk: Disk, disk': Disk) {
    && Extends(repo, rows, disk, disk')
    && (forall path | path in rows && Wanted(repo, rows, path) ::
          PlaceOf(repo, path).file in disk' || IsDir(disk', PlaceOf(repo, path).file))
    && (forall f | f in disk' && f !in disk :: !IsDir(disk', f))
  }

  // ---- reading back -------------------------------------------------------------------

  /** The memory path of a file that is not blank. */
  predicate Filed(repo: Repo, disk: Disk, path: string) {
    path != "" && path[0] == '/' && path[1..] in disk && !repo.blank(disk[path[1..]])
  }

  /** Every non-blank file written over the memory of its path. */
  ghost predicate Synced(repo: Repo, disk: Disk, rows: Rows, rows': Rows) {
    && (forall path :: path in rows' <==> path in rows || Filed(repo, disk, path))
    && forall path | path in rows' ::
         rows'[path] == if Filed(repo, disk, path) then Persist(repo, disk[path[1..]]) else rows[path]
  }

  // ---- the mount ------------------------------------------------------------------------

  class Mount {
    const repo: Repo
    var rows: Rows
    var disk: Disk

    constructor (repo: Repo, rows: Rows, disk: Disk)
      ensures this.repo == repo && this.rows == rows && this.disk == disk
    {
      this.repo, this.rows, this.disk := repo, rows, disk;
    }

    /** MaterializeMemoryStore; the rows come in no particular order. */
    method Materialize() returns (ok: bool)
      modifies `disk
      ensures Extends(repo, rows, old(disk), disk)
      ensures ok ==> Materialized(repo, rows, old(disk), disk)
    {
      ghost var before := disk;
      var left := rows.Keys;
      while left != {}
        invariant left <= rows.Keys
        invariant Materialized(repo, rows - left, before, disk)
        decreases |left|
      {
        var path :| path in left;
        ghost var done := rows - left;
        left := left - {path};
        assert rows - left == done[path := rows[path]];
        var rel := Rel(path);
        if rel == "" {
          NoName(repo, path);
          MoreRows(repo, done, path, rows[path], before, disk);
          continue;
        }
        var dest := PlaceOf(repo, path);
        if dest.At? && (dest.file == "" || dest.file in disk || IsDir(disk, dest.file)) {
          MoreRows(repo, done, path, rows[path], before, disk);
          continue;
        }
        var content := if rows[path].Inline? then rows[path].text else "";
        if content == "" {
          if rows[path].Inline? || repo.blobs {
            content := rows[path].text;
          }
        }
        if repo.blank(content) {
          MoreRows(repo, done, path, rows[path], before, disk);
          continue;
        }
        if dest.Elsewhere? {
          MoreRows(repo, done, path, rows[path], before, disk);
          if !dest.works {
            MoreExtends(repo, done, rows, before, disk);
            return false;
          }
          continue;
        }
        if Blocked(disk, dest.file) {
          MoreExtends(repo, done, rows, before, disk);
          return false;
        }
        NewFile(repo, done, path, rows[path], before, disk);
        disk := disk[dest.file := content];
      }
      assert rows - left == rows;
      return true;
    }

    /** One file of the walk. */
    method SyncFile(f: string, text: string, ghost done: Disk, ghost before: Rows) returns (ok: bool)
      requires f !in done && Synced(repo, done, before, rows)
      modifies `rows
      ensures ok == (repo.blank(text) || repo.fits(text))
      ensures if ok then Synced(repo, done[f := text], before, rows) else rows == old(rows)
    {
      SyncOneMore(repo, done, f, text, before, rows);
      if repo.blank(text) {
        return true;
      }
      if !repo.fits(text) {
        return false;
      }
      rows := rows["/" + f := Persist(repo, text)];
      return true;
    }

    /** syncMemoryTree; the files come in no particular order. */
    method SyncMemoryTree() returns (ok: bool)
      modifies `rows
      ensures ok <==> AllAccepted(repo, disk)
      ensures ok ==> Synced(repo, disk, old(rows), rows)
      ensures Untouched(repo, disk, old(rows), rows)
    {
      ghost var before, done: Disk := rows, map[];
      var left := disk.Keys;
      while left != {}
        invariant left <= disk.Keys && Rest(disk, left, done)
        invariant Synced(repo, done, before, rows) && AllAccepted(repo, done)
        decreases |left|
      {
        var f :| f in left;
        OneLess(disk, left, done, f);
        var written := SyncFile(f, disk[f], done, before);
        if !written {
          PartSynced(repo, done, disk, before, rows);
          return false;
        }
        left, done := left - {f}, done[f := disk[f]];
      }
      assert done == disk;
      PartSynced(repo, done, disk, before, rows);
      return true;
    }
  }

  /** `done` are the files not left. */
  ghost predicate Rest(disk: Disk, left: set<string>, done: Disk) {
    (forall f :: f in done <==> f in disk && f !in left) && forall f | f in done :: done[f] == disk[f]
  }

  lemma OneLess(disk: Disk, left: set<string>, done: Disk, f: string)
    requires Rest(disk, left, done) && f in left && f in disk
    ensures f !in done && Rest(disk, left - {f}, done[f := disk[f]])
    ensures forall g | g in done :: g in disk && disk[g] == done[g]
  {
  }

  /** No file that is not blank is refused. */
  ghost predicate AllAccepted(repo: Repo, disk: Disk) {
    forall f | f in disk :: repo.blank(disk[f]) || repo.fits(disk[f])
  }

  /** Memories without a file, or with a blank one, are as they were. */
  ghost predicate Untouched(repo: Repo, disk: Disk, rows: Rows, rows': Rows) {
    forall path | path in rows && !Filed(repo, disk, path) :: path in rows' && rows'[path] == rows[path]
  }

  ghost predicate Within(done: Rows, rows: Rows) {
    forall path | path in done :: path in rows && rows[path] == done[path]
  }

  lemma MoreExtends(repo: Repo, done: Rows, rows: Rows, before: Disk, disk: Disk)
    requires Extends(repo, done, before, disk) && Within(done, rows)
    ensures Extends(repo, rows, before, disk)
  {
    forall f | f in disk && f !in before
      ensures f != "" && !repo.blank(disk[f])
      ensures exists path :: path in rows && FileIs(repo, path, f) && disk[f] == Fetched(repo, rows[path])
    {
      var path :| path in done && FileIs(repo, path, f) && disk[f] == Fetched(repo, done[path]);
      assert path in rows && rows[path] == done[path];
    }
  }

  lemma NoName(repo: Repo, path: string)
    requires Rel(path) == ""
    ensures FileIs(repo, path, "")
  {
    assert [""][..0] == [];
  }

  /** A row that needs no file. */
  lemma MoreRows(repo: Repo, done: Rows, path: string, row: Row, before: Disk, disk: Disk)
    requires Materialized(repo, done, before, disk) && path !in done
    requires
      var dest := PlaceOf(repo, path);
      || dest.Elsewhere? || dest.file == "" || dest.file in disk || IsDir(disk, dest.file)
      || repo.blank(Fetched(repo, row))
    ensures Materialized(repo, done[path := row], before, disk)
  {
    MoreExtends(repo, done, done[path := row], before, disk);
  }

  /** Everything a directory stands in the place of keeps its directory. */
  lemma DirStaysWith(disk: Disk, f: string, text: string, rel: string)
    requires IsDir(disk, rel)
    ensures IsDir(disk[f := text], rel)
  {
    var g :| g in disk && rel + "/" <= g;
    assert g in disk[f := text];
  }

  /** A file put where nothing is in its way makes no other file a directory. */
  lemma NoNewDir(disk: Disk, f: string, text: string, g: string)
    requires !Blocked(disk, f) && !IsDir(disk, f) && (g == f || (g in disk && !IsDir(disk, g)))
    ensures !IsDir(disk[f := text], g)
  {
  }

  /** The row of the new file among those done. */
  lemma NewFileExtends(repo: Repo, done: Rows, path: string, row: Row, before: Disk, disk: Disk, f: string)
    requires Extends(repo, done, before, disk) && path !in done && FileIs(repo, path, f)
    requires f != "" && f !in disk && !repo.blank(Fetched(repo, row))
    ensures Extends(repo, done[path := row], before, disk[f := Fetched(repo, row)])
  {
    MoreExtends(repo, done, done[path := row], before, disk);
    assert path in done[path := row];
  }

  lemma NewFile(repo: Repo, done: Rows, path: string, row: Row, before: Disk, disk: Disk)
    requires Materialized(repo, done, before, disk) && path !in done && PlaceOf(repo, path).At?
    requires
      var f := PlaceOf(repo, path).file;
      f != "" && f !in disk && !IsDir(disk, f) && !Blocked(disk, f) && !repo.blank(Fetched(repo, row))
    ensures Materialized(repo, done[path := row], before, disk[PlaceOf(repo, path).file := Fetched(repo, row)])
  {
    var rows, f, text := done[path := row], PlaceOf(repo, path).file, Fetched(repo, row);
    var disk' := disk[f := text];
    NewFileExtends(repo, done, path, row, before, disk, f);
    forall p | p in rows && Wanted(repo, rows, p)
      ensures PlaceOf(repo, p).file in disk' || IsDir(disk', PlaceOf(repo, p).file)
    {
      if p != path {
        assert Wanted(repo, done, p);
        if PlaceOf(repo, p).file !in disk {
          DirStaysWith(disk, f, text, PlaceOf(repo, p).file);
        }
      }
    }
    forall g | g in disk' && g !in before ensures !IsDir(disk', g) {
      NoNewDir(disk, f, text, g);
    }
  }

  lemma FiledMore(repo: Repo, done: Disk, f: string, text: string, path: string)
    requires f !in done
    ensures Filed(repo, done[f := text], path) <==> Filed(repo, done, path) || (path == "/" + f && !repo.blank(text))
    ensures path == "/" + f ==> path[1..] == f
    ensures Filed(repo, done[f := text], path) && path != "/" + f ==> done[f := text][path[1..]] == done[path[1..]]
  {
    if path != "" && path[0] == '/' {
      assert path == "/" + path[1..];
    }
  }

  lemma SyncOneMore(repo: Repo, done: Disk, f: string, text: string, rows: Rows, now: Rows)
    requires f !in done && Synced(repo, done, rows, now)
    ensures Synced(repo, done[f := text], rows, if repo.blank(text) then now else now["/" + f := Persist(repo, text)])
  {
    var next := if repo.blank(text) then now else now["/" + f := Persist(repo, text)];
    var more := done[f := text];
    forall path ensures path in next <==> path in rows || Filed(repo, more, path) {
      FiledMore(repo, done, f, text, path);
    }
    forall path | path in next
      ensures next[path] == if Filed(repo, more, path) then Persist(repo, more[path[1..]]) else rows[path]
    {
      FiledMore(repo, done, f, text, path);
    }
  }

  lemma PartSynced(repo: Repo, done: Disk, disk: Disk, rows: Rows, now: Rows)
    requires Synced(repo, done, rows, now) && forall f | f in done :: f in disk && disk[f] == done[f]
    ensures Untouched(repo, disk, rows, now)
  {
    forall path | path in rows && !Filed(repo, disk, path) ensures !Filed(repo, done, path) {
    }
  }

  // ---- rounds of mounting and syncing -------------------------------------------------------

  /** A leading slash, and nothing for the file system to clean behind it: no empty,
      "." or ".." segment. */
  predicate PlainPath(path: string) { path != "" && path[0] == '/' && CleanName(path[1..]) }

  ghost predicate AllPlain(rows: Rows) { forall path | path in rows :: PlainPath(path) }

  ghost predicate CleanNames(disk: Disk) { forall f | f in disk :: CleanName(f) }

  /** A plain path is exactly one whose file leads back to it. */
  lemma LeadsBack(repo: Repo, path: string)
    requires Tidy(repo)
    ensures PlainPath(path) <==>
      path != "" && path[0] == '/' && PlaceOf(repo, path) == At(path[1..]) && path[1..] != ""
  {
    if path != "" && path[0] == '/' {
      if CleanName(path[1..]) {
        CleanStays(path[1..]);
      } else if Walk(Segments(path[1..])).Some? {
        WalkedClean(path[1..]);
      }
    }
  }

  lemma PlainFile(repo: Repo, path: string, f: string)
    requires Tidy(repo) && PlainPath(path) && FileIs(repo, path, f)
    ensures path == "/" + f
  {
    LeadsBack(repo, path);
    assert path == "/" + path[1..];
  }

  lemma FileLeadsBack(repo: Repo, f: string)
    requires CleanName(f)
    ensures PlaceOf(repo, "/" + f) == At(f) && f != ""
  {
    assert ("/" + f)[1..] == f;
    CleanStays(f);
  }

  lemma PlacesClean(repo: Repo, path: string)
    requires Tidy(repo) && PlaceOf(repo, path).At? && PlaceOf(repo, path).file != ""
    ensures CleanName(PlaceOf(repo, path).file)
  {
    if Walk(Segments(Rel(path))).Some? {
      WalkedClean(Rel(path));
    }
  }

  /** What anybody reading the store sees at a path. */
  function Shown(repo: Repo, rows: Rows, path: string): Option<string> {
    if path in rows then Some(Fetched(repo, rows[path])) else None
  }

  ghost predicate SameText(repo: Repo, rows: Rows, rows': Rows) {
    forall path :: Shown(repo, rows, path) == Shown(repo, rows', path)
  }

  /** Every file that is not blank is what its path shows. */
  ghost predicate Agrees(repo: Repo, rows: Rows, disk: Disk) {
    forall f | f in disk && !repo.blank(disk[f]) :: Shown(repo, rows, "/" + f) == Some(disk[f])
  }

  /** After a sync the store agrees with the disk at every file that is not blank, and
      keeps what has no file. */
  lemma StoreFollowsDisk(repo: Repo, disk: Disk, rows: Rows, rows': Rows)
    requires Synced(repo, disk, rows, rows')
    ensures Agrees(repo, rows', disk)
    ensures forall path | path in rows && (path == "" || path[0] != '/' || path[1..] !in disk) ::
      path in rows' && rows'[path] == rows[path]
  {
    forall f | f in disk && !repo.blank(disk[f]) ensures Shown(repo, rows', "/" + f) == Some(disk[f]) {
      assert ("/" + f)[1..] == f && Filed(repo, disk, "/" + f);
    }
  }

  /** A synced memory holds its file's text, in a blob exactly when there are blobs and the
      text is large. */
  lemma KeptWhere(repo: Repo, disk: Disk, rows: Rows, rows': Rows, f: string)
    requires Synced(repo, disk, rows, rows') && f in disk && !repo.blank(disk[f])
    ensures
      && "/" + f in rows' && rows'["/" + f].text == disk[f]
      && (rows'["/" + f].Blob? <==> repo.blobs && repo.large(disk[f]))
  {
    assert ("/" + f)[1..] == f && Filed(repo, disk, "/" + f);
  }

  predicate HoldsReadable(repo: Repo, row: Row, text: string) { text == row.text && (row.Blob? ==> repo.blobs) }

  /** A new file holds a memory's text, and no blob's where there is no blob store. */
  lemma UnreadableBlobs(repo: Repo, rows: Rows, disk: Disk, disk': Disk, f: string)
    requires Extends(repo, rows, disk, disk') && f in disk' && f !in disk && repo.blank("")
    ensures exists path :: path in rows && FileIs(repo, path, f) && HoldsReadable(repo, rows[path], disk'[f])
  {
    var path :| path in rows && FileIs(repo, path, f) && disk'[f] == Fetched(repo, rows[path]);
    assert disk'[f] != "";
  }

  /** Files written from a store with plain paths, to which the disk was just synced,
      add nothing new when they are synced again. */
  lemma FirstSync(repo: Repo, rows: Rows, disk: Disk, disk': Disk, rows': Rows)
    requires Tidy(repo) && AllPlain(rows) && Extends(repo, rows, disk, disk') && Synced(repo, disk', rows, rows')
    requires Agrees(repo, rows, disk)
    ensures SameText(repo, rows, rows')
  {
    forall path ensures Shown(repo, rows, path) == Shown(repo, rows', path) {
      if Filed(repo, disk', path) {
        FileShown(repo, rows, disk, disk', path);
      }
    }
  }

  lemma FileShown(repo: Repo, rows: Rows, disk: Disk, disk': Disk, path: string)
    requires Tidy(repo) && AllPlain(rows) && Extends(repo, rows, disk, disk') && Filed(repo, disk', path)
    requires Agrees(repo, rows, disk)
    ensures Shown(repo, rows, path) == Some(disk'[path[1..]])
  {
    assert path == "/" + path[1..];
    if path[1..] !in disk {
      NewFileShown(repo, rows, disk, disk', path[1..]);
    }
  }

  lemma NewFileShown(repo: Repo, rows: Rows, disk: Disk, disk': Disk, f: string)
    requires Tidy(repo) && AllPlain(rows) && Extends(repo, rows, disk, disk') && f in disk' && f !in disk
    ensures Shown(repo, rows, "/" + f) == Some(disk'[f])
  {
    var p :| p in rows && FileIs(repo, p, f) && disk'[f] == Fetched(repo, rows[p]);
    PlainFile(repo, p, f);
  }

  /** Syncing the same files twice changes nothing the second time. */
  lemma SecondSync(repo: Repo, rows: Rows, disk: Disk, rows': Rows)
    requires Agrees(repo, rows, disk) && Synced(repo, disk, rows, rows')
    ensures SameText(repo, rows, rows')
  {
    forall path ensures Shown(repo, rows, path) == Shown(repo, rows', path) {
      if Filed(repo, disk, path) {
        assert path == "/" + path[1..];
      }
    }
  }

  /** Nothing is left to write out once everything the store had was written out and
      the files were synced back. */
  lemma SecondMount(repo: Repo, rows: Rows, rows': Rows, disk: Disk, disk': Disk, disk'': Disk)
    requires CleanNames(disk') && Materialized(repo, rows, disk, disk') && Synced(repo, disk', rows, rows')
    requires Materialized(repo, rows', disk', disk'')
    ensures disk'' == disk'
  {
    forall f | f in disk'' ensures f in disk' {
      if f !in disk' {
        var path :| path in rows' && FileIs(repo, path, f) && disk''[f] == Fetched(repo, rows'[path]);
        Covered(repo, rows, rows', disk, disk', disk'', path);
      }
    }
  }

  lemma Covered(repo: Repo, rows: Rows, rows': Rows, disk: Disk, disk': Disk, disk'': Disk, path: string)
    requires CleanNames(disk') && Materialized(repo, rows, disk, disk') && Synced(repo, disk', rows, rows')
    requires Extends(repo, rows', disk', disk'') && path in rows' && Wanted(repo, rows', path)
    ensures PlaceOf(repo, path).file in disk' || IsDir(disk'', PlaceOf(repo, path).file)
  {
    if Filed(repo, disk', path) {
      assert path == "/" + path[1..];
      FileLeadsBack(repo, path[1..]);
    } else {
      assert Wanted(repo, rows, path);
      if PlaceOf(repo, path).file !in disk' {
        DirStays(repo, rows', disk', disk'', PlaceOf(repo, path).file);
      }
    }
  }

  lemma DirStays(repo: Repo, rows: Rows, disk: Disk, disk': Disk, rel: string)
    requires Extends(repo, rows, disk, disk') && IsDir(disk, rel)
    ensures IsDir(disk', rel)
  {
    var g :| g in disk && rel + "/" <= g;
    assert g in disk';
  }

  /** The k-th round: mounted, then synced. */
  ghost predicate Round(repo: Repo, rows: seq<Rows>, disks: seq<Disk>, k: nat)
    requires k + 1 < |rows| == |disks|
  {
    Materialized(repo, rows[k], disks[k], disks[k + 1]) && Synced(repo, disks[k + 1], rows[k], rows[k + 1])
  }

  lemma StaysClean(repo: Repo, rows: Rows, disk: Disk, disk': Disk)
    requires Tidy(repo) && CleanNames(disk) && Extends(repo, rows, disk, disk')
    ensures CleanNames(disk')
  {
    forall f | f in disk' ensures CleanName(f) {
      if f !in disk {
        var path :| path in rows && FileIs(repo, path, f) && disk'[f] == Fetched(repo, rows[path]);
        PlacesClean(repo, path);
      }
    }
  }

  /** Everything the rounds keep, whatever paths the store has. */
  lemma {:induction false} Rounds(repo: Repo, rows: seq<Rows>, disks: seq<Disk>, n: nat)
    requires n < |rows| == |disks| && Tidy(repo) && CleanNames(disks[0]) && Agrees(repo, rows[0], disks[0])
    requires forall k: nat | k < n :: Round(repo, rows, disks, k)
    ensures CleanNames(disks[n]) && Agrees(repo, rows[n], disks[n])
  {
    if n > 0 {
      Rounds(repo, rows, disks, n - 1);
      assert Round(repo, rows, disks, n - 1);
      StaysClean(repo, rows[n - 1], disks[n - 1], disks[n]);
      StoreFollowsDisk(repo, disks[n], rows[n - 1], rows[n]);
    }
  }

  /** From the second round on nothing changes. */
  lemma RoundSettles(repo: Repo, rows: seq<Rows>, disks: seq<Disk>, n: nat)
    requires 1 < n < |rows| == |disks| && Round(repo, rows, disks, n - 2) && Round(repo, rows, disks, n - 1)
    requires CleanNames(disks[n - 1]) && Agrees(repo, rows[n - 1], disks[n - 1])
    ensures disks[n] == disks[n - 1] && SameText(repo, rows[n - 1], rows[n])
  {
    SecondMount(repo, rows[n - 2], rows[n - 1], disks[n - 2], disks[n - 1], disks[n]);
    SecondSync(repo, rows[n - 1], disks[n], rows[n]);
  }

  lemma {:induction false} Settles(repo: Repo, rows: seq<Rows>, disks: seq<Disk>, n: nat)
    requires 1 <= n < |rows| == |disks| && Tidy(repo) && CleanNames(disks[0]) && Agrees(repo, rows[0], disks[0])
    requires forall k: nat | k < n :: Round(repo, rows, disks, k)
    ensures disks[n] == disks[1] && SameText(repo, rows[1], rows[n])
  {
    if n > 1 {
      Settles(repo, rows, disks, n - 1);
      Rounds(repo, rows, disks, n - 1);
      assert Round(repo, rows, disks, n - 2) && Round(repo, rows, disks, n - 1);
      RoundSettles(repo, rows, disks, n);
      SameOn(repo, rows[1], rows[n - 1], rows[n]);
    }
  }

  /** From any store and any edited files, once synced: mounting and syncing over and
      over changes the disk and what the store shows at most in the first round, and if
      all paths are plain, what the store shows not even then. */
  lemma Converges(repo: Repo, start: Rows, rows: seq<Rows>, disks: seq<Disk>, n: nat)
    requires 1 <= n < |rows| == |disks| && Tidy(repo) && CleanNames(disks[0])
    requires Synced(repo, disks[0], start, rows[0])
    requires forall k: nat | k < n :: Round(repo, rows, disks, k)
    ensures disks[n] == disks[1] && SameText(repo, rows[1], rows[n]) && Agrees(repo, rows[n], disks[n])
    ensures AllPlain(rows[0]) ==> SameText(repo, rows[0], rows[n])
  {
    StoreFollowsDisk(repo, disks[0], start, rows[0]);
    Rounds(repo, rows, disks, n);
    Settles(repo, rows, disks, n);
    FirstRound(repo, rows, disks);
    if AllPlain(rows[0]) {
      SameOn(repo, rows[0], rows[1], rows[n]);
    }
  }

  lemma SameOn(repo: Repo, a: Rows, b: Rows, c: Rows)
    requires SameText(repo, a, b) && SameText(repo, b, c)
    ensures SameText(repo, a, c)
  {
    forall path ensures Shown(repo, a, path) == Shown(repo, c, path) {
      assert Shown(repo, a, path) == Shown(repo, b, path) == Shown(repo, c, path);
    }
  }

  lemma FirstRound(repo: Repo, rows: seq<Rows>, disks: seq<Disk>)
    requires 1 < |rows| == |disks| && Tidy(repo) && Agrees(repo, rows[0], disks[0])
    requires forall k: nat | k < 1 :: Round(repo, rows, disks, k)
    ensures AllPlain(rows[0]) ==> SameText(repo, rows[0], rows[1])
  {
    assert Round(repo, rows, disks, 0);
    if AllPlain(rows[0]) {
      FirstSync(repo, rows[0], disks[0], disks[1], rows[1]);
    }
  }

  // ---- whose edits reach the store ------------------------------------------------------------

  /** Whatever a sync finds in the memory's file, the memory then holds. */
  ghost predicate Reached(repo: Repo, path: string) {
    && PlaceOf(repo, path).At? && PlaceOf(repo, path).file != ""
    && forall disk, rows, rows' | Synced(repo, disk, rows, rows') :: Follows(repo, path, disk, rows')
  }

  ghost predicate Follows(repo: Repo, path: string, disk: Disk, rows': Rows)
    requires PlaceOf(repo, path).At?
  {
    var f := PlaceOf(repo, path).file;
    f in disk && !repo.blank(disk[f]) ==> Shown(repo, rows', path) == Some(disk[f])
  }

  /** Edits of a memory's file reach the memory exactly when its path is plain. */
  lemma EditsReach(repo: Repo, path: string, text: string)
    requires Tidy(repo) && !repo.blank(text)
    ensures Reached(repo, path) <==> PlainPath(path)
  {
    LeadsBack(repo, path);
    if PlainPath(path) {
      forall disk, rows, rows' | Synced(repo, disk, rows, rows') ensures Follows(repo, path, disk, rows') {
        if path[1..] in disk && !repo.blank(disk[path[1..]]) {
          assert Filed(repo, disk, path);
        }
      }
    } else if PlaceOf(repo, path).At? && PlaceOf(repo, path).file != "" {
      LostEdits(repo, path, PlaceOf(repo, path).file, text);
    }
  }

  /** The file of another memory's path is that memory's. */
  lemma LostEdits(repo: Repo, path: string, f: string, text: string)
    requires FileIs(repo, path, f) && path != "/" + f && !repo.blank(text)
    ensures !Reached(repo, path)
  {
    var disk, rows': Rows := map[f := text], map["/" + f := Persist(repo, text)];
    assert ("/" + f)[1..] == f;
    forall p ensures Filed(repo, disk, p) <==> p == "/" + f {
      if p != "" && p[0] == '/' {
        assert p == "/" + p[1..];
      }
    }
    assert Synced(repo, disk, map[], rows');
    assert !Follows(repo, path, disk, rows');
  }

  /** A segment that cleaning drops leads to the file behind it, but not back. */
  lemma Dropped(repo: Repo, path: string, segment: string, name: string)
    requires (segment == "" || segment == ".") && Proper(name)
    requires path != "" && path[0] == '/' && path[1..] == segment + "/" + name
    ensures FileIs(repo, path, name) && !PlainPath(path)
  {
    DroppedSegments(segment, name);
    assert Rel(path) == segment + "/" + name;
    assert segment in Segments(path[1..]);
  }

  /** Accepted paths whose edits are lost, both with a leading slash. */
  lemma LostSlashes(repo: Repo, text: string)
    requires Tidy(repo) && !repo.blank(text)
    ensures FileIs(repo, "//x", "x") && !Reached(repo, "//x")
    ensures FileIs(repo, "/./x", "x") && !Reached(repo, "/./x")
  {
    Dropped(repo, "//x", "", "x");
    Dropped(repo, "/./x", ".", "x");
    EditsReach(repo, "//x", text);
    EditsReach(repo, "/./x", text);
  }

  // ---- all mounts of a session --------------------------------------------------------------

  datatype Binding = Binding(storeId: string, storeName: string, readOnly: bool)

  predicate Writable(b: Binding) { !b.readOnly && b.storeId != "" }

  function RowsOf(stores: map<string, Rows>, id: string): Rows { if id in stores then stores[id] else map[] }

  /** Of the first n bindings the i-th is the last that writes its store. */
  ghost predicate LastWriter(bindings: seq<Binding>, n: nat, i: int)
    requires n <= |bindings|
  {
    && 0 <= i < n && !bindings[i].readOnly && bindings[i].storeId != ""
    && forall j | i < j < n :: bindings[j].readOnly || bindings[j].storeId != bindings[i].storeId
  }

  /** Stores that none of the first n bindings writes are as before. */
  ghost predicate ReadOnlyKept(bindings: seq<Binding>, before: map<string, Rows>, stores: map<string, Rows>) {
    forall id | id in before && (id == "" || forall b | b in bindings :: b.readOnly || b.storeId != id) ::
      id in stores && stores[id] == before[id]
  }

  /** A store follows the last of the first n bindings that write it. */
  ghost predicate FollowLast(repo: Repo, bindings: seq<Binding>, n: nat, trees: map<string, Disk>,
        stores: map<string, Rows>)
    requires n <= |bindings|
  {
    forall i | LastWriter(bindings, n, i) && bindings[i].storeName in trees ::
      Agrees(repo, RowsOf(stores, bindings[i].storeId), trees[bindings[i].storeName])
  }

  /** SyncMemoryStoresFromWorkdir: `trees` are the mounts that exist. Stores that are
      only mounted read-only are never written; a writable one ends up as the last of
      its mounts. */
  method SyncStores(repo: Repo, bindings: seq<Binding>, trees: map<string, Disk>, before: map<string, Rows>)
    returns (ok: bool, stores: map<string, Rows>)
    ensures stores.Keys == before.Keys && ReadOnlyKept(bindings, before, stores)
    ensures ok ==> FollowLast(repo, bindings, |bindings|, trees, stores)
  {
    stores := before;
    for n := 0 to |bindings|
      invariant stores.Keys == before.Keys && ReadOnlyKept(bindings, before, stores)
      invariant FollowLast(repo, bindings, n, trees, stores)
    {
      var b := bindings[n];
      assert b in bindings;
      if !Writable(b) || b.storeName !in trees {
        SkippedFollows(repo, bindings, n, trees, stores);
        continue;
      }
      var m := new Mount(repo, RowsOf(stores, b.storeId), trees[b.storeName]);
      var written := SyncKnown(m, b.storeId in stores);
      if !written {
        return false, stores;
      }
      StoreFollowsDisk(repo, trees[b.storeName], RowsOf(stores, b.storeId), m.rows);
      WrittenFollows(repo, bindings, n, trees, stores, m.rows);
      if b.storeId in stores {
        stores := stores[b.storeId := m.rows];
      }
    }
    return true, stores;
  }

  lemma SkippedFollows(repo: Repo, bindings: seq<Binding>, n: nat, trees: map<string, Disk>, stores: map<string, Rows>)
    requires n < |bindings| && FollowLast(repo, bindings, n, trees, stores)
    requires !Writable(bindings[n]) || bindings[n].storeName !in trees
    ensures FollowLast(repo, bindings, n + 1, trees, stores)
  {
    EarlierWriters(bindings, n);
  }

  lemma WrittenFollows(repo: Repo, bindings: seq<Binding>, n: nat, trees: map<string, Disk>,
        stores: map<string, Rows>, rows: Rows)
    requires n < |bindings| && FollowLast(repo, bindings, n, trees, stores)
    requires Writable(bindings[n]) && bindings[n].storeName in trees
    requires Agrees(repo, rows, trees[bindings[n].storeName]) && (bindings[n].storeId !in stores ==> rows == map[])
    ensures
      var id := bindings[n].storeId;
      FollowLast(repo, bindings, n + 1, trees, if id in stores then stores[id := rows] else stores)
  {
    EarlierWriters(bindings, n);
  }

  /** Writing to a store that does not exist fails. */
  method SyncKnown(m: Mount, known: bool) returns (ok: bool)
    requires !known ==> m.rows == map[]
    modifies m`rows
    ensures ok ==> Synced(m.repo, m.disk, old(m.rows), m.rows) && (!known ==> m.rows == map[])
  {
    if known {
      ok := m.SyncMemoryTree();
      return;
    }
    ok := forall f :: f in m.disk ==> m.repo.blank(m.disk[f]);
  }

  lemma EarlierWriters(bindings: seq<Binding>, n: nat)
    requires n < |bindings|
    ensures forall i | LastWriter(bindings, n + 1, i) && i != n ::
      LastWriter(bindings, n, i) && !(Writable(bindings[n]) && bindings[n].storeId == bindings[i].storeId)
  {
  }
}
