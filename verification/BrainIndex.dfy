/** The incremental repository index: tables of rows keyed by path, and a sync that touches only what
    changed. Rows of one path are always written together, so a table is determined, up to the order
    of paths, by its slices. */
module BrainIndex {

  type Path = string

  /** A row of `chunks` or `edges`: its path, its chunk id, its indexed columns and its line columns. */
  datatype Row = Row(path: Path, id: string, columns: string, lines: string)

  datatype Built = Built(chunks: seq<Row>, edges: seq<Row>)

  datatype File = File(size: nat, mtime: int, text: string)

  type Tree = map<Path, File>

  datatype FileRow = FileRow(size: nat, mtime: int, sha: string)

  datatype Db = Db(files: map<Path, FileRow>, chunks: seq<Row>, fts: seq<Row>, edges: seq<Row>)

  const EMPTY := Db(map[], [], [], [])

  /** What the index depends on: the chunker and the digest. */
  datatype Env = Env(build: (Path, string) -> Built, sha: string -> string)

  /** The full-text row of a chunk has no line columns. */
  function FtsRows(rows: seq<Row>): (r: seq<Row>)
    ensures |r| == |rows|
    ensures forall i :: 0 <= i < |rows| ==> r[i] == rows[i].(lines := "")
  {
    seq(|rows|, i requires 0 <= i < |rows| => rows[i].(lines := ""))
  }

  // ------------------------------------------------------------------
  // Tables
  // ------------------------------------------------------------------

  /** `SELECT ... WHERE path = p`. */
  function Slice(rows: seq<Row>, p: Path): seq<Row> {
    if rows == [] then [] else (if rows[0].path == p then [rows[0]] else []) + Slice(rows[1..], p)
  }

  /** `DELETE ... WHERE path = p`. */
  function Without(rows: seq<Row>, p: Path): seq<Row> {
    if rows == [] then [] else (if rows[0].path == p then [] else [rows[0]]) + Without(rows[1..], p)
  }

  function Ids(rows: seq<Row>): set<string> { set i | 0 <= i < |rows| :: rows[i].id }

  predicate DistinctIds(rows: seq<Row>) {
    forall i, j :: 0 <= i < j < |rows| ==> rows[i].id != rows[j].id
  }

  /** `_delete_path`. */
  function DeletePath(db: Db, p: Path): Db {
    Db(db.files - {p}, Without(db.chunks, p), Without(db.fts, p), Without(db.edges, p))
  }

  datatype Outcome = Ok(db: Db) | IntegrityError

  /** Inserting chunks respects the primary key. */
  function Insert(db: Db, p: Path, row: FileRow, built: Built): Outcome {
    if Ids(db.chunks) !! Ids(built.chunks) && DistinctIds(built.chunks)
    then Ok(Db(db.files[p := row], db.chunks + built.chunks, db.fts + FtsRows(built.chunks), db.edges + built.edges))
    else IntegrityError
  }

  // ------------------------------------------------------------------
  // Sync
  // ------------------------------------------------------------------

  function StatRow(env: Env, file: File): FileRow { FileRow(file.size, file.mtime, env.sha(file.text)) }

  /** One current path; `existing` is what the files table held when the sync began. */
  function SyncPath(env: Env, db: Db, existing: map<Path, FileRow>, p: Path, file: File, full: bool): Outcome {
    if !full && p in existing && existing[p].size == file.size && existing[p].mtime == file.mtime then Ok(db)
    else if !full && p in existing && existing[p].sha == env.sha(file.text) then
      Ok(if p in db.files then db.(files := db.files[p := db.files[p].(size := file.size, mtime := file.mtime)]) else db)
    else Insert(DeletePath(db, p), p, StatRow(env, file), env.build(p, file.text))
  }

  function DeleteAll(db: Db, gone: seq<Path>): Db
    decreases |gone|
  {
    if gone == [] then db else DeleteAll(DeletePath(db, gone[0]), gone[1..])
  }

  function SyncAll(env: Env, db: Db, existing: map<Path, FileRow>, paths: seq<Path>, tree: Tree, full: bool): Outcome
    requires PathsIn(paths, tree)
    decreases |paths|
  {
    if paths == [] then Ok(db)
    else
      match SyncPath(env, db, existing, paths[0], tree[paths[0]], full)
      case IntegrityError => IntegrityError
      case Ok(next) => SyncAll(env, next, existing, paths[1..], tree, full)
  }

  /** `paths` lists the keys of `of` without repetition, in some order. */
  predicate Lists(paths: seq<Path>, of: set<Path>) {
    && (forall i, j :: 0 <= i < j < |paths| ==> paths[i] != paths[j])
    && (forall p :: p in paths ==> p in of)
    && (forall p :: p in of ==> p in paths)
  }

  /** `sync` on one snapshot of the tree. */
  function Sync(env: Env, db: Db, gone: seq<Path>, paths: seq<Path>, tree: Tree, full: bool): Outcome
    requires Lists(paths, tree.Keys)
  {
    SyncAll(env, DeleteAll(db, gone), db.files, paths, tree, full)
  }

  // ------------------------------------------------------------------
  // What an index of a tree is
  // ------------------------------------------------------------------

  /** The chunker labels its rows with the path, and no two chunks share an id. */
  ghost predicate NoCollisions(env: Env) {
    && (forall p, t ::
          && (forall i :: 0 <= i < |env.build(p, t).chunks| ==> env.build(p, t).chunks[i].path == p)
          && (forall i :: 0 <= i < |env.build(p, t).edges| ==> env.build(p, t).edges[i].path == p)
          && DistinctIds(env.build(p, t).chunks))
    && (forall p, t, q, u :: p != q ==> Ids(env.build(p, t).chunks) !! Ids(env.build(q, u).chunks))
    && (forall t, u :: env.sha(t) == env.sha(u) ==> t == u)
  }

  /** Everything the database holds about one path is what indexing `text` gives. */
  predicate PathIndexed(env: Env, db: Db, p: Path, text: string) {
    && Slice(db.chunks, p) == env.build(p, text).chunks
    && Slice(db.fts, p) == FtsRows(env.build(p, text).chunks)
    && Slice(db.edges, p) == env.build(p, text).edges
  }

  predicate PathAbsent(db: Db, p: Path) {
    Slice(db.chunks, p) == [] && Slice(db.fts, p) == [] && Slice(db.edges, p) == []
  }

  predicate PathSynced(env: Env, db: Db, tree: Tree, p: Path) {
    && (p in db.files <==> p in tree)
    && (p in tree ==> db.files[p] == StatRow(env, tree[p]) && PathIndexed(env, db, p, tree[p].text))
    && (p !in tree ==> PathAbsent(db, p))
  }

  /** The database is an index of exactly this tree. */
  ghost predicate Synced(env: Env, db: Db, tree: Tree) {
    forall p :: PathSynced(env, db, tree, p)
  }

  lemma {:induction false} SliceIsPart(rows: seq<Row>, p: Path, row: Row)
    ensures row in Slice(rows, p) <==> row in rows && row.path == p
  {
    if rows != [] {
      assert rows == [rows[0]] + rows[1..];
      SliceIsPart(rows[1..], p, row);
    }
  }

  /** What an index of a tree holds, row by row: a row of the chunk or edge table is there exactly if its
      path is in the tree and the chunker makes it from the current text; a full-text row exactly if it is
      such a chunk without its lines; and the files table describes exactly the files of the tree. */
  lemma {:induction false} ContentsExactly(env: Env, db: Db, tree: Tree, row: Row)
    requires Synced(env, db, tree)
    ensures row in db.chunks <==> row.path in tree && row in env.build(row.path, tree[row.path].text).chunks
    ensures row in db.edges <==> row.path in tree && row in env.build(row.path, tree[row.path].text).edges
    ensures row in db.fts <==>
            row.path in tree && exists chunk :: chunk in env.build(row.path, tree[row.path].text).chunks && row == chunk.(lines := "")
    ensures forall p :: p in db.files <==> p in tree
    ensures forall p :: p in tree ==> db.files[p].size == tree[p].size && db.files[p].mtime == tree[p].mtime && db.files[p].sha == env.sha(tree[p].text)
  {
    var p := row.path;
    assert PathSynced(env, db, tree, p);
    SliceIsPart(db.chunks, p, row);
    SliceIsPart(db.edges, p, row);
    SliceIsPart(db.fts, p, row);
    if p in tree {
      FtsMembers(env.build(p, tree[p].text).chunks, row);
    }
    forall q ensures (q in db.files <==> q in tree) && (q in tree ==> db.files[q] == StatRow(env, tree[q])) {
      assert PathSynced(env, db, tree, q);
    }
  }

  lemma {:induction false} FtsMembers(rows: seq<Row>, row: Row)
    ensures row in FtsRows(rows) <==> exists chunk :: chunk in rows && row == chunk.(lines := "")
  {
    if row in FtsRows(rows) {
      var i :| 0 <= i < |rows| && FtsRows(rows)[i] == row;
      assert rows[i] in rows;
    }
    if chunk :| chunk in rows && row == chunk.(lines := "") {
      var i :| 0 <= i < |rows| && rows[i] == chunk;
      assert FtsRows(rows)[i] == row;
    }
  }

  /** Equal size and modification time mean equal text. */
  predicate Honest(before: Tree, after: Tree) {
    forall p :: p in before && p in after && before[p].size == after[p].size && before[p].mtime == after[p].mtime ==>
      before[p].text == after[p].text
  }

  // ------------------------------------------------------------------
  // Slices
  // ------------------------------------------------------------------

  lemma {:induction false} SliceConcat(a: seq<Row>, b: seq<Row>, p: Path)
    ensures Slice(a + b, p) == Slice(a, p) + Slice(b, p)
  {
    if a == [] {
      assert a + b == b;
    } else {
      assert (a + b)[1..] == a[1..] + b;
      SliceConcat(a[1..], b, p);
      var head := if a[0].path == p then [a[0]] else [];
      assert head + (Slice(a[1..], p) + Slice(b, p)) == head + Slice(a[1..], p) + Slice(b, p);
    }
  }

  lemma {:induction false} SliceWithout(rows: seq<Row>, p: Path, q: Path)
    ensures Slice(Without(rows, p), q) == if p == q then [] else Slice(rows, q)
  {
    if rows != [] {
      var head := if rows[0].path == p then [] else [rows[0]];
      SliceWithout(rows[1..], p, q);
      SliceConcat(head, Without(rows[1..], p), q);
      assert Slice(head, q) == if head != [] && rows[0].path == q then [rows[0]] else [] by {
        if head != [] {
          assert head[1..] == [];
        }
      }
    }
  }

  lemma {:induction false} SliceOwn(rows: seq<Row>, p: Path, q: Path)
    requires forall i :: 0 <= i < |rows| ==> rows[i].path == p
    ensures Slice(rows, q) == if p == q then rows else []
  {
    if rows != [] {
      SliceOwn(rows[1..], p, q);
    }
  }

  lemma {:induction false} SliceMember(rows: seq<Row>, i: nat)
    requires i < |rows|
    ensures rows[i] in Slice(rows, rows[i].path)
    decreases i
  {
    if i > 0 {
      SliceMember(rows[1..], i - 1);
    }
  }

  // ------------------------------------------------------------------
  // One path at a time
  // ------------------------------------------------------------------

  lemma {:induction false} DeleteSlices(db: Db, p: Path, q: Path)
    ensures var d := DeletePath(db, p);
            && Slice(d.chunks, q) == (if p == q then [] else Slice(db.chunks, q))
            && Slice(d.fts, q) == (if p == q then [] else Slice(db.fts, q))
            && Slice(d.edges, q) == (if p == q then [] else Slice(db.edges, q))
            && (q in d.files <==> q in db.files && p != q)
            && (q in d.files ==> d.files[q] == db.files[q])
  {
    SliceWithout(db.chunks, p, q);
    SliceWithout(db.fts, p, q);
    SliceWithout(db.edges, p, q);
  }

  lemma {:induction false} InsertSlices(env: Env, db: Db, p: Path, row: FileRow, text: string, q: Path)
    requires NoCollisions(env) && Insert(db, p, row, env.build(p, text)).Ok?
    ensures var d := Insert(db, p, row, env.build(p, text)).db;
            var built := env.build(p, text);
            && Slice(d.chunks, q) == Slice(db.chunks, q) + (if p == q then built.chunks else [])
            && Slice(d.fts, q) == Slice(db.fts, q) + (if p == q then FtsRows(built.chunks) else [])
            && Slice(d.edges, q) == Slice(db.edges, q) + (if p == q then built.edges else [])
  {
    var built := env.build(p, text);
    SliceConcat(db.chunks, built.chunks, q);
    SliceConcat(db.fts, FtsRows(built.chunks), q);
    SliceConcat(db.edges, built.edges, q);
    SliceOwn(built.chunks, p, q);
    SliceOwn(FtsRows(built.chunks), p, q);
    SliceOwn(built.edges, p, q);
  }

  /** A state in the middle of a sync: `texts` says which text each path is indexed with. */
  ghost predicate Indexes(env: Env, db: Db, texts: map<Path, string>) {
    forall p :: PathState(env, db, texts, p)
  }

  predicate PathState(env: Env, db: Db, texts: map<Path, string>, p: Path) {
    && (p in db.files <==> p in texts)
    && (p in texts ==> db.files[p].sha == env.sha(texts[p]) && PathIndexed(env, db, p, texts[p]))
    && (p !in texts ==> PathAbsent(db, p))
  }

  lemma {:induction false} DeleteIndexes(env: Env, db: Db, texts: map<Path, string>, p: Path)
    requires Indexes(env, db, texts)
    ensures Indexes(env, DeletePath(db, p), texts - {p})
  {
    forall q ensures PathState(env, DeletePath(db, p), texts - {p}, q) {
      assert PathState(env, db, texts, q);
      DeleteSlices(db, p, q);
    }
  }

  /** Chunk ids of other paths never clash with a freshly built path. */
  lemma {:induction false} FreshIds(env: Env, db: Db, texts: map<Path, string>, p: Path, text: string)
    requires NoCollisions(env) && Indexes(env, db, texts) && p !in texts
    ensures Ids(db.chunks) !! Ids(env.build(p, text).chunks)
  {
    forall id | id in Ids(db.chunks) ensures id !in Ids(env.build(p, text).chunks) {
      var i :| 0 <= i < |db.chunks| && db.chunks[i].id == id;
      var q := db.chunks[i].path;
      SliceMember(db.chunks, i);
      assert PathState(env, db, texts, q);
      assert db.chunks[i] in env.build(q, texts[q]).chunks;
      assert id in Ids(env.build(q, texts[q]).chunks);
    }
  }

  lemma {:induction false} InsertIndexes(env: Env, db: Db, texts: map<Path, string>, p: Path, file: File)
    requires NoCollisions(env) && Indexes(env, db, texts) && p !in texts
    ensures var o := Insert(db, p, StatRow(env, file), env.build(p, file.text));
            o.Ok? && Indexes(env, o.db, texts[p := file.text]) && o.db.files == db.files[p := StatRow(env, file)]
  {
    FreshIds(env, db, texts, p, file.text);
    var after := Insert(db, p, StatRow(env, file), env.build(p, file.text)).db;
    var updated := texts[p := file.text];
    forall q ensures PathState(env, after, updated, q) {
      assert PathState(env, db, texts, q);
      InsertSlices(env, db, p, StatRow(env, file), file.text, q);
    }
  }

  /** The snapshot taken at the start still describes this path, and is honest about it. */
  predicate Ready(db: Db, existing: map<Path, FileRow>, texts: map<Path, string>, p: Path, file: File, full: bool) {
    && (p in existing <==> p in db.files)
    && (p in existing ==> existing[p] == db.files[p])
    && (!full && p in existing && existing[p].size == file.size && existing[p].mtime == file.mtime ==>
          p in texts && texts[p] == file.text)
  }

  /** Syncing one path leaves it indexed with its current text and its row up to date. */
  lemma {:induction false} PathSyncs(
    env: Env, db: Db, existing: map<Path, FileRow>, texts: map<Path, string>, p: Path, file: File, full: bool)
    requires NoCollisions(env) && Indexes(env, db, texts)
    requires Ready(db, existing, texts, p, file, full)
    ensures var o := SyncPath(env, db, existing, p, file, full);
            && o.Ok?
            && Indexes(env, o.db, texts[p := file.text])
            && o.db.files == db.files[p := StatRow(env, file)]
  {
    assert PathState(env, db, texts, p);
    if !full && p in existing && existing[p].size == file.size && existing[p].mtime == file.mtime {
      assert texts[p := file.text] == texts;
      assert db.files[p := StatRow(env, file)] == db.files;
    } else if !full && p in existing && existing[p].sha == env.sha(file.text) {
      assert texts[p := file.text] == texts;
      var o := SyncPath(env, db, existing, p, file, full);
      forall q ensures PathState(env, o.db, texts, q) {
        assert PathState(env, db, texts, q);
      }
    } else {
      DeleteIndexes(env, db, texts, p);
      InsertIndexes(env, DeletePath(db, p), texts - {p}, p, file);
      assert (texts - {p})[p := file.text] == texts[p := file.text];
      assert DeletePath(db, p).files[p := StatRow(env, file)] == db.files[p := StatRow(env, file)];
    }
  }

  // ------------------------------------------------------------------
  // The whole sync
  // ------------------------------------------------------------------

  lemma {:induction false} DeletesIndex(env: Env, db: Db, texts: map<Path, string>, gone: seq<Path>)
    requires Indexes(env, db, texts)
    ensures var keep := set p | p in texts && p !in gone;
            && Indexes(env, DeleteAll(db, gone), map p | p in keep :: texts[p])
            && (forall p :: p in DeleteAll(db, gone).files ==> p in db.files && DeleteAll(db, gone).files[p] == db.files[p])
    decreases |gone|
  {
    var keep := set p | p in texts && p !in gone;
    if gone == [] {
      assert (map p | p in keep :: texts[p]) == texts;
    } else {
      var g, rest := gone[0], gone[1..];
      DeleteIndexes(env, db, texts, g);
      DeletesIndex(env, DeletePath(db, g), texts - {g}, rest);
      var keep' := set p | p in texts - {g} && p !in rest;
      assert gone == [g] + rest;
      assert keep == keep';
      assert (map p | p in keep :: texts[p]) == map p | p in keep' :: (texts - {g})[p];
    }
  }

  predicate PathsIn(paths: seq<Path>, tree: Tree) {
    forall i :: 0 <= i < |paths| ==> paths[i] in tree
  }

  function Retext(texts: map<Path, string>, paths: seq<Path>, tree: Tree): map<Path, string>
    requires PathsIn(paths, tree)
    decreases |paths|
  {
    if paths == [] then texts else Retext(texts[paths[0] := tree[paths[0]].text], paths[1..], tree)
  }

  function Refile(env: Env, files: map<Path, FileRow>, paths: seq<Path>, tree: Tree): map<Path, FileRow>
    requires PathsIn(paths, tree)
    decreases |paths|
  {
    if paths == [] then files else Refile(env, files[paths[0] := StatRow(env, tree[paths[0]])], paths[1..], tree)
  }

  lemma {:induction false} RetextAt(texts: map<Path, string>, paths: seq<Path>, tree: Tree, p: Path)
    requires PathsIn(paths, tree)
    ensures p in Retext(texts, paths, tree) <==> p in texts || p in paths
    ensures p in paths ==> p in tree && Retext(texts, paths, tree)[p] == tree[p].text
    ensures p in texts && p !in paths ==> Retext(texts, paths, tree)[p] == texts[p]
    decreases |paths|
  {
    if paths != [] {
      assert paths == [paths[0]] + paths[1..];
      RetextAt(texts[paths[0] := tree[paths[0]].text], paths[1..], tree, p);
    }
  }

  lemma {:induction false} RefileAt(env: Env, files: map<Path, FileRow>, paths: seq<Path>, tree: Tree, p: Path)
    requires PathsIn(paths, tree)
    ensures p in Refile(env, files, paths, tree) <==> p in files || p in paths
    ensures p in paths ==> p in tree && Refile(env, files, paths, tree)[p] == StatRow(env, tree[p])
    ensures p in files && p !in paths ==> Refile(env, files, paths, tree)[p] == files[p]
    decreases |paths|
  {
    if paths != [] {
      assert paths == [paths[0]] + paths[1..];
      RefileAt(env, files[paths[0] := StatRow(env, tree[paths[0]])], paths[1..], tree, p);
    }
  }

  /** Syncing the listed paths makes exactly those current. */
  lemma {:induction false} PathsSync(
    env: Env, db: Db, existing: map<Path, FileRow>, texts: map<Path, string>, paths: seq<Path>, tree: Tree, full: bool)
    requires NoCollisions(env) && Indexes(env, db, texts) && PathsIn(paths, tree)
    requires forall i, j :: 0 <= i < j < |paths| ==> paths[i] != paths[j]
    requires forall i :: 0 <= i < |paths| ==> Ready(db, existing, texts, paths[i], tree[paths[i]], full)
    ensures var o := SyncAll(env, db, existing, paths, tree, full);
            && o.Ok?
            && Indexes(env, o.db, Retext(texts, paths, tree))
            && o.db.files == Refile(env, db.files, paths, tree)
    decreases |paths|
  {
    if paths != [] {
      var p, rest := paths[0], paths[1..];
      PathSyncs(env, db, existing, texts, p, tree[p], full);
      var next := SyncPath(env, db, existing, p, tree[p], full).db;
      forall i | 0 <= i < |rest| ensures Ready(next, existing, texts[p := tree[p].text], rest[i], tree[rest[i]], full) {
        assert rest[i] == paths[i + 1];
        assert Ready(db, existing, texts, paths[i + 1], tree[paths[i + 1]], full);
      }
      PathsSync(env, next, existing, texts[p := tree[p].text], rest, tree, full);
    }
  }

  function Texts(tree: Tree): map<Path, string> { map p | p in tree :: tree[p].text }

  /** A synced database indexes the texts of its tree, and conversely when its rows are current. */
  lemma {:induction false} SyncedTexts(env: Env, db: Db, tree: Tree)
    ensures Synced(env, db, tree) <==>
            Indexes(env, db, Texts(tree)) && db.files == map p | p in tree :: StatRow(env, tree[p])
  {
    if Synced(env, db, tree) {
      forall p ensures PathState(env, db, Texts(tree), p) {
        assert PathSynced(env, db, tree, p);
      }
      forall p ensures (p in db.files <==> p in tree) && (p in tree ==> db.files[p] == StatRow(env, tree[p])) {
        assert PathSynced(env, db, tree, p);
      }
    }
    if Indexes(env, db, Texts(tree)) && db.files == map p | p in tree :: StatRow(env, tree[p]) {
      forall p ensures PathSynced(env, db, tree, p) {
        assert PathState(env, db, Texts(tree), p);
      }
    }
  }

  /** An incremental or full sync turns an index of the previous tree into an index of the current
      one, whatever order the paths come in, and never violates the primary key. */
  lemma {:induction false} SyncIndexes(
    env: Env, db: Db, before: Tree, gone: seq<Path>, paths: seq<Path>, tree: Tree, full: bool)
    requires NoCollisions(env) && Synced(env, db, before) && (full || Honest(before, tree))
    requires Lists(paths, tree.Keys) && Lists(gone, db.files.Keys - tree.Keys)
    ensures Sync(env, db, gone, paths, tree, full).Ok?
    ensures Synced(env, Sync(env, db, gone, paths, tree, full).db, tree)
  {
    SyncedTexts(env, db, before);
    var texts := Texts(before);
    DeletesIndex(env, db, texts, gone);
    var keep := set p | p in texts && p !in gone;
    var kept := map p | p in keep :: texts[p];
    var d := DeleteAll(db, gone);
    forall i | 0 <= i < |paths| ensures Ready(d, db.files, kept, paths[i], tree[paths[i]], full) {
      StillReady(env, db, before, gone, d, kept, tree, full, paths[i]);
    }
    PathsSync(env, d, db.files, kept, paths, tree, full);
    forall p ensures p in kept || p in d.files ==> p in tree {
      OnlyCurrentKept(env, db, before, gone, d, kept, tree, p);
    }
    AllCurrent(env, Sync(env, db, gone, paths, tree, full).db, d.files, kept, paths, tree);
  }

  lemma {:induction false} AllCurrent(
    env: Env, t: Db, files: map<Path, FileRow>, kept: map<Path, string>, paths: seq<Path>, tree: Tree)
    requires Lists(paths, tree.Keys) && PathsIn(paths, tree)
    requires Indexes(env, t, Retext(kept, paths, tree)) && t.files == Refile(env, files, paths, tree)
    requires forall p :: p in kept || p in files ==> p in tree
    ensures Synced(env, t, tree)
  {
    forall p ensures p in Retext(kept, paths, tree) <==> p in tree
             ensures p in tree ==> Retext(kept, paths, tree)[p] == tree[p].text
    {
      RetextAt(kept, paths, tree, p);
    }
    forall p ensures p in t.files <==> p in tree
             ensures p in tree ==> t.files[p] == StatRow(env, tree[p])
    {
      RefileAt(env, files, paths, tree, p);
    }
    assert Retext(kept, paths, tree) == Texts(tree);
    SyncedTexts(env, t, tree);
  }

  lemma {:induction false} StillReady(
    env: Env, db: Db, before: Tree, gone: seq<Path>, d: Db, kept: map<Path, string>, tree: Tree, full: bool, p: Path)
    requires Synced(env, db, before) && (full || Honest(before, tree)) && Indexes(env, d, kept)
    requires Lists(gone, db.files.Keys - tree.Keys) && p in tree
    requires p in kept <==> p in before && p !in gone
    requires p in kept ==> kept[p] == before[p].text
    requires p in d.files ==> p in db.files && d.files[p] == db.files[p]
    ensures Ready(d, db.files, kept, p, tree[p], full)
  {
    assert PathSynced(env, db, before, p);
    assert PathState(env, d, kept, p);
  }

  lemma {:induction false} OnlyCurrentKept(
    env: Env, db: Db, before: Tree, gone: seq<Path>, d: Db, kept: map<Path, string>, tree: Tree, p: Path)
    requires Synced(env, db, before) && Indexes(env, d, kept)
    requires Lists(gone, db.files.Keys - tree.Keys)
    requires p in kept <==> p in before && p !in gone
    ensures p in kept || p in d.files ==> p in tree
  {
    assert PathSynced(env, db, before, p);
    assert PathState(env, d, kept, p);
  }

  // ------------------------------------------------------------------
  // Files that change behind their size and modification time
  // ------------------------------------------------------------------

  /** The tree as sizes and modification times show it: a file whose size and time are as they were
      is taken to hold what it held. */
  function Seen(before: Tree, tree: Tree): Tree {
    map p | p in tree ::
      if p in before && before[p].size == tree[p].size && before[p].mtime == tree[p].mtime then before[p] else tree[p]
  }

  lemma {:induction false} SeenSyncsAlike(
    env: Env, db: Db, existing: map<Path, FileRow>, before: Tree, paths: seq<Path>, tree: Tree)
    requires PathsIn(paths, tree) && PathsIn(paths, Seen(before, tree))
    requires existing == map p | p in before :: StatRow(env, before[p])
    ensures SyncAll(env, db, existing, paths, tree, false) == SyncAll(env, db, existing, paths, Seen(before, tree), false)
    decreases |paths|
  {
    if paths != [] {
      var p := paths[0];
      assert SyncPath(env, db, existing, p, tree[p], false) == SyncPath(env, db, existing, p, Seen(before, tree)[p], false);
      if SyncPath(env, db, existing, p, tree[p], false).Ok? {
        var next := SyncPath(env, db, existing, p, tree[p], false).db;
        SeenSyncsAlike(env, next, existing, before, paths[1..], tree);
      }
    }
  }

  /** An incremental sync always leaves an index of the tree as it is seen, and that is the tree
      itself exactly when no file changed its text behind its size and modification time. */
  lemma {:induction false} IncrementalExactly(
    env: Env, db: Db, before: Tree, gone: seq<Path>, paths: seq<Path>, tree: Tree)
    requires NoCollisions(env) && Synced(env, db, before)
    requires Lists(paths, tree.Keys) && Lists(gone, db.files.Keys - tree.Keys)
    ensures var o := Sync(env, db, gone, paths, tree, false);
            && o.Ok?
            && Synced(env, o.db, Seen(before, tree))
            && (Synced(env, o.db, tree) <==> Honest(before, tree))
  {
    var seen := Seen(before, tree);
    assert seen.Keys == tree.Keys;
    SyncedTexts(env, db, before);
    SeenSyncsAlike(env, DeleteAll(db, gone), db.files, before, paths, tree);
    SyncIndexes(env, db, before, gone, paths, seen, false);
    var t := Sync(env, db, gone, paths, seen, false).db;
    if Honest(before, tree) {
      assert seen == tree;
    }
    if Synced(env, t, tree) {
      forall p | p in before && p in tree && before[p].size == tree[p].size && before[p].mtime == tree[p].mtime
        ensures before[p].text == tree[p].text
      {
        assert PathSynced(env, t, tree, p) && PathSynced(env, t, seen, p);
      }
    }
  }

  // ------------------------------------------------------------------
  // Agreement with a rebuild
  // ------------------------------------------------------------------

  lemma {:induction false} SlicesDetermine(a: seq<Row>, b: seq<Row>)
    requires forall p :: Slice(a, p) == Slice(b, p)
    ensures multiset(a) == multiset(b)
  {
    forall row ensures multiset(a)[row] == multiset(b)[row] {
      SliceCount(a, row);
      SliceCount(b, row);
      assert Slice(a, row.path) == Slice(b, row.path);
    }
  }

  lemma {:induction false} SliceCount(rows: seq<Row>, row: Row)
    ensures multiset(rows)[row] == multiset(Slice(rows, row.path))[row]
  {
    if rows != [] {
      SliceCount(rows[1..], row);
      assert rows == [rows[0]] + rows[1..];
      assert multiset(rows) == multiset([rows[0]]) + multiset(rows[1..]);
      var head := if rows[0].path == row.path then [rows[0]] else [];
      assert multiset(Slice(rows, row.path)) == multiset(head) + multiset(Slice(rows[1..], row.path));
    }
  }

  lemma {:induction false} SameTables(env: Env, a: Db, b: Db, tree: Tree)
    requires Synced(env, a, tree) && Synced(env, b, tree)
    ensures a.files == b.files
    ensures multiset(a.chunks) == multiset(b.chunks) && multiset(a.fts) == multiset(b.fts)
    ensures multiset(a.edges) == multiset(b.edges)
  {
    SyncedTexts(env, a, tree);
    SyncedTexts(env, b, tree);
    forall p ensures Slice(a.chunks, p) == Slice(b.chunks, p) && Slice(a.fts, p) == Slice(b.fts, p)
                     && Slice(a.edges, p) == Slice(b.edges, p)
    {
      assert PathSynced(env, a, tree, p) && PathSynced(env, b, tree, p);
    }
    SlicesDetermine(a.chunks, b.chunks);
    SlicesDetermine(a.fts, b.fts);
    SlicesDetermine(a.edges, b.edges);
  }

  /** One sync of a history: the snapshot, the order in which its paths came, and the mode. */
  datatype Pass = Pass(tree: Tree, gone: seq<Path>, paths: seq<Path>, full: bool)

  function TreeAfter(start: Tree, passes: seq<Pass>): Tree {
    if passes == [] then start else passes[|passes| - 1].tree
  }

  /** Every pass lists what a sync would list, and snapshots are honest to incremental passes. */
  predicate Plausible(start: Tree, passes: seq<Pass>)
    decreases |passes|
  {
    passes == [] ||
    (var p := passes[0];
     && Lists(p.paths, p.tree.Keys)
     && Lists(p.gone, start.Keys - p.tree.Keys)
     && (p.full || Honest(start, p.tree))
     && Plausible(p.tree, passes[1..]))
  }

  function History(env: Env, db: Db, passes: seq<Pass>): Outcome
    requires forall i :: 0 <= i < |passes| ==> Lists(passes[i].paths, passes[i].tree.Keys)
    decreases |passes|
  {
    if passes == [] then Ok(db)
    else
      var p := passes[0];
      match Sync(env, db, p.gone, p.paths, p.tree, p.full)
      case IntegrityError => IntegrityError
      case Ok(next) => History(env, next, passes[1..])
  }

  lemma {:induction false} HistorySyncs(env: Env, db: Db, start: Tree, passes: seq<Pass>)
    requires NoCollisions(env) && Synced(env, db, start) && Plausible(start, passes)
    ensures forall i :: 0 <= i < |passes| ==> Lists(passes[i].paths, passes[i].tree.Keys)
    ensures History(env, db, passes).Ok? && Synced(env, History(env, db, passes).db, TreeAfter(start, passes))
    decreases |passes|
  {
    if passes != [] {
      var p := passes[0];
      SyncedTexts(env, db, start);
      assert db.files.Keys == start.Keys;
      SyncIndexes(env, db, start, p.gone, p.paths, p.tree, p.full);
      var next := Sync(env, db, p.gone, p.paths, p.tree, p.full).db;
      HistorySyncs(env, next, p.tree, passes[1..]);
      assert forall i :: 1 <= i < |passes| ==> passes[i] == passes[1..][i - 1];
    }
  }

  lemma {:induction false} EmptySynced(env: Env)
    ensures Synced(env, EMPTY, map[])
  {
    forall p ensures PathSynced(env, EMPTY, map[], p) {
    }
  }

  /** From any database produced by earlier syncs over any history of file trees, syncing leaves the
      same files, chunks, full-text rows and edges as a full rebuild into an empty database. */
  lemma {:induction false} IncrementalEqualsRebuild(env: Env, passes: seq<Pass>, rebuild: seq<Path>)
    requires NoCollisions(env) && Plausible(map[], passes) && passes != []
    requires Lists(rebuild, TreeAfter(map[], passes).Keys)
    ensures forall i :: 0 <= i < |passes| ==> Lists(passes[i].paths, passes[i].tree.Keys)
    ensures var tree := TreeAfter(map[], passes);
            var kept := History(env, EMPTY, passes);
            var rebuilt := Sync(env, EMPTY, [], rebuild, tree, true);
            && kept.Ok? && rebuilt.Ok?
            && kept.db.files == rebuilt.db.files
            && multiset(kept.db.chunks) == multiset(rebuilt.db.chunks)
            && multiset(kept.db.fts) == multiset(rebuilt.db.fts)
            && multiset(kept.db.edges) == multiset(rebuilt.db.edges)
  {
    EmptySynced(env);
    HistorySyncs(env, EMPTY, map[], passes);
    var tree := TreeAfter(map[], passes);
    assert Lists([], EMPTY.files.Keys - tree.Keys);
    SyncIndexes(env, EMPTY, map[], [], rebuild, tree, true);
    SameTables(env, History(env, EMPTY, passes).db, Sync(env, EMPTY, [], rebuild, tree, true).db, tree);
  }

  // ------------------------------------------------------------------
  // Idempotence and staleness
  // ------------------------------------------------------------------

  lemma {:induction false} UnchangedPaths(env: Env, db: Db, existing: map<Path, FileRow>, paths: seq<Path>, tree: Tree)
    requires forall i :: 0 <= i < |paths| ==>
               && paths[i] in tree
               && paths[i] in existing
               && existing[paths[i]].size == tree[paths[i]].size
               && existing[paths[i]].mtime == tree[paths[i]].mtime
    ensures SyncAll(env, db, existing, paths, tree, false) == Ok(db)
    decreases |paths|
  {
    if paths != [] {
      UnchangedPaths(env, db, existing, paths[1..], tree);
    }
  }

  lemma {:induction false} EmptyList(paths: seq<Path>, of: set<Path>)
    requires Lists(paths, of)
    ensures paths == [] <==> of == {}
  {
    if paths != [] {
      assert paths[0] in of;
    }
  }

  /** A second sync of the same tree changes nothing at all, not even the order of rows. */
  lemma {:induction false} SecondSyncIsNoOp(env: Env, db: Db, gone: seq<Path>, paths: seq<Path>, tree: Tree)
    requires Synced(env, db, tree) && Lists(paths, tree.Keys) && Lists(gone, db.files.Keys - tree.Keys)
    ensures Sync(env, db, gone, paths, tree, false) == Ok(db)
  {
    SyncedTexts(env, db, tree);
    assert db.files.Keys - tree.Keys == {};
    EmptyList(gone, db.files.Keys - tree.Keys);
    UnchangedPaths(env, db, db.files, paths, tree);
  }

  /** A path `stale_paths` must report. */
  predicate IsStale(db: Db, tree: Tree, p: Path) {
    || (p in tree && (p !in db.files || db.files[p].size != tree[p].size || db.files[p].mtime != tree[p].mtime))
    || (p in db.files && p !in tree)
  }

  predicate StaleList(db: Db, tree: Tree, stale: seq<Path>) {
    && (forall i :: 0 <= i < |stale| ==> IsStale(db, tree, stale[i]))
    && (forall i, j :: 0 <= i < j < |stale| ==> stale[i] != stale[j])
  }

  /** The loop over the current paths. */
  method StaleCurrent(db: Db, tree: Tree, current: seq<Path>, limit: int) returns (stale: seq<Path>)
    requires Lists(current, tree.Keys)
    ensures StaleList(db, tree, stale) && (forall i :: 0 <= i < |stale| ==> stale[i] in tree)
    ensures stale == [] || |stale| < limit ==> forall p :: p in tree && IsStale(db, tree, p) ==> p in stale
    ensures |stale| <= limit || |stale| <= 1
  {
    stale := [];
    var i := 0;
    while i < |current|
      invariant 0 <= i <= |current|
      invariant |stale| < limit || stale == []
      invariant StaleList(db, tree, stale) && forall j :: 0 <= j < |stale| ==> stale[j] in current[..i]
      invariant forall j :: 0 <= j < i && IsStale(db, tree, current[j]) ==> current[j] in stale
    {
      var p := current[i];
      assert p in current;
      if p !in db.files || db.files[p].size != tree[p].size || db.files[p].mtime != tree[p].mtime {
        stale := stale + [p];
        if |stale| >= limit {
          return;
        }
      }
      i := i + 1;
    }
  }

  /** The loop over the indexed paths. */
  method StaleGone(db: Db, tree: Tree, indexed: seq<Path>, limit: int, before: seq<Path>) returns (stale: seq<Path>)
    requires Lists(indexed, db.files.Keys) && StaleList(db, tree, before) && (|before| < limit || before == [])
    requires forall i :: 0 <= i < |before| ==> before[i] in tree
    ensures StaleList(db, tree, stale) && before <= stale
    ensures stale == [] || |stale| < limit ==> forall p :: p !in tree && IsStale(db, tree, p) ==> p in stale
    ensures |stale| <= limit || |stale| <= 1
  {
    stale := before;
    var k := 0;
    while k < |indexed|
      invariant 0 <= k <= |indexed| && before <= stale
      invariant |stale| < limit || stale == []
      invariant StaleList(db, tree, stale)
      invariant forall j :: 0 <= j < |stale| ==> stale[j] in tree || stale[j] in indexed[..k]
      invariant forall j :: 0 <= j < k && indexed[j] !in tree ==> indexed[j] in stale
    {
      var p := indexed[k];
      assert p in indexed;
      if p !in tree {
        stale := stale + [p];
        if |stale| >= limit {
          return;
        }
      }
      k := k + 1;
    }
  }

  /** `stale_paths`: current paths first, then indexed ones that are gone, up to `limit`. */
  method StalePaths(db: Db, tree: Tree, current: seq<Path>, indexed: seq<Path>, limit: int) returns (stale: seq<Path>)
    requires Lists(current, tree.Keys) && Lists(indexed, db.files.Keys)
    ensures StaleList(db, tree, stale)
    ensures stale == [] || |stale| < limit ==> forall p :: IsStale(db, tree, p) ==> p in stale
    ensures |stale| <= limit || |stale| <= 1
  {
    stale := StaleCurrent(db, tree, current, limit);
    if stale != [] && |stale| >= limit {
      return;
    }
    stale := StaleGone(db, tree, indexed, limit, stale);
  }

  /** After a sync nothing is stale, whatever the limit; and a database about which nothing is stale
      lists exactly the current paths with their current sizes and times. */
  lemma {:induction false} NothingStaleExactly(env: Env, db: Db, tree: Tree)
    ensures Synced(env, db, tree) ==> forall p :: !IsStale(db, tree, p)
    ensures (forall p :: !IsStale(db, tree, p)) <==>
            db.files.Keys == tree.Keys &&
            forall p :: p in tree ==> db.files[p].size == tree[p].size && db.files[p].mtime == tree[p].mtime
  {
    if Synced(env, db, tree) {
      forall p ensures !IsStale(db, tree, p) {
        assert PathSynced(env, db, tree, p);
      }
    }
    if (forall p :: !IsStale(db, tree, p)) {
      forall p ensures p in db.files <==> p in tree {
        assert !IsStale(db, tree, p);
      }
      forall p | p in tree ensures db.files[p].size == tree[p].size && db.files[p].mtime == tree[p].mtime {
        assert !IsStale(db, tree, p);
      }
    }
  }

  // ------------------------------------------------------------------
  // The sync loop
  // ------------------------------------------------------------------

  /** The path is chunked again, rather than skipped. */
  predicate Reindexed(env: Env, existing: map<Path, FileRow>, p: Path, file: File, full: bool) {
    full || p !in existing
    || ((existing[p].size != file.size || existing[p].mtime != file.mtime) && existing[p].sha != env.sha(file.text))
  }

  function CountReindexed(env: Env, existing: map<Path, FileRow>, paths: seq<Path>, tree: Tree, full: bool): (n: nat)
    requires PathsIn(paths, tree)
    ensures n <= |paths|
    decreases |paths|
  {
    if paths == [] then 0
    else
      (if Reindexed(env, existing, paths[0], tree[paths[0]], full) then 1 else 0)
      + CountReindexed(env, existing, paths[1..], tree, full)
  }

  /** With an index of `before` in the database, a path is chunked again exactly if the sync is full, the path
      is new, or its size or time shows a change and its text has really changed; a path that is not leaves
      every row of the chunk, full-text and edge tables where it was. */
  lemma {:induction false} RewritesExactly(env: Env, db: Db, before: Tree, p: Path, file: File, full: bool)
    requires NoCollisions(env) && Synced(env, db, before)
    ensures Reindexed(env, db.files, p, file, full) <==>
            full || p !in before || ((before[p].size != file.size || before[p].mtime != file.mtime) && before[p].text != file.text)
    ensures !Reindexed(env, db.files, p, file, full) ==>
            var o := SyncPath(env, db, db.files, p, file, full);
            o.Ok? && o.db.chunks == db.chunks && o.db.fts == db.fts && o.db.edges == db.edges
  {
    assert PathSynced(env, db, before, p);
  }


  method DeleteGone(db: Db, gone: seq<Path>) returns (result: Db)
    ensures result == DeleteAll(db, gone)
  {
    result := db;
    var i := 0;
    while i < |gone|
      invariant 0 <= i <= |gone|
      invariant DeleteAll(result, gone[i..]) == DeleteAll(db, gone)
    {
      assert gone[i..][1..] == gone[i + 1..];
      result := DeletePath(result, gone[i]);
      i := i + 1;
    }
  }

  /** The body of the transaction: the outcome and the number of files chunked again. */
  method SyncPaths(env: Env, start: Db, existing: map<Path, FileRow>, paths: seq<Path>, tree: Tree, full: bool)
    returns (outcome: Outcome, changed: nat)
    requires PathsIn(paths, tree)
    ensures outcome == SyncAll(env, start, existing, paths, tree, full)
    ensures outcome.Ok? ==> changed == CountReindexed(env, existing, paths, tree, full)
  {
    var db := start;
    changed := 0;
    var i := 0;
    while i < |paths|
      invariant 0 <= i <= |paths| && PathsIn(paths[i..], tree)
      invariant SyncAll(env, db, existing, paths[i..], tree, full) == SyncAll(env, start, existing, paths, tree, full)
      invariant changed + CountReindexed(env, existing, paths[i..], tree, full)
                == CountReindexed(env, existing, paths, tree, full)
    {
      var p := paths[i];
      var file := tree[p];
      assert paths[i..][0] == p && paths[i..][1..] == paths[i + 1..];
      if !full && p in existing && existing[p].size == file.size && existing[p].mtime == file.mtime {
      } else if !full && p in existing && existing[p].sha == env.sha(file.text) {
        if p in db.files {
          db := db.(files := db.files[p := db.files[p].(size := file.size, mtime := file.mtime)]);
        }
      } else {
        var o := Insert(DeletePath(db, p), p, StatRow(env, file), env.build(p, file.text));
        if o.IntegrityError? {
          return IntegrityError, changed;
        }
        db := o.db;
        changed := changed + 1;
      }
      i := i + 1;
    }
    outcome := Ok(db);
  }

  /** The database file: a failing sync is rolled back. */
  class Brain {
    var db: Db

    constructor ()
      ensures db == EMPTY
    {
      db := EMPTY;
    }

    method SyncTree(env: Env, gone: seq<Path>, paths: seq<Path>, tree: Tree, full: bool)
      returns (ok: bool, changed: nat, skipped: nat)
      requires Lists(paths, tree.Keys)
      modifies this
      ensures ok ==> Sync(env, old(db), gone, paths, tree, full) == Ok(db)
      ensures !ok ==> Sync(env, old(db), gone, paths, tree, full).IntegrityError? && db == old(db)
      ensures ok ==> changed == CountReindexed(env, old(db).files, paths, tree, full) && changed + skipped == |paths|
    {
      var existing := db.files;
      var start := DeleteGone(db, gone);
      var outcome, n := SyncPaths(env, start, existing, paths, tree, full);
      ok := outcome.Ok?;
      changed, skipped := n, if ok then |paths| - n else 0;
      if ok {
        db := outcome.db;
      }
    }
  }
}
