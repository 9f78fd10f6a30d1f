// The virtual file system (src/kernel/filesystem.ts): file and directory records in the
// entity store's `files` collection, keyed by id, and a cache of records keyed by path.
module FileSystem {
  import opened Wrappers
  import opened Text
  import opened Sorting
  import opened KernelTypes
  import opened VfsPaths
  import opened VfsPermissions

  /** The `files` collection: records keyed by their id (`keyPath: 'id'`). */
  type Files = map<NodeId, FileNode>

  /** The path-keyed part of the cache `Map`. */
  type Cache = map<string, FileNode>

  /** The errors the file system throws. */
  datatype FsError =
    | ParentNotFound(parentPath: string)
    | PermissionDenied
    | DirectoryExists(path: string)
    | FileExists(path: string)
    | NotADirectory(path: string)
    | FileNotFound(path: string)
    | SourceNotFound(path: string)
    | DestinationParentNotFound(path: string)
    /** The `RangeError` of a recursion deeper than the call stack allows. */
    | StackOverflow

  // ---------------------------------------------------------------------------
  // The store's path index and the cache lookup (getByPath)
  // ---------------------------------------------------------------------------

  lemma Least(s: set<nat>) returns (m: nat)
    requires s != {}
    ensures m in s && forall k :: k in s ==> m <= k
    decreases s
  {
    var x :| x in s;
    if s == {x} {
      m := x;
    } else {
      var rest := s - {x};
      var l := Least(rest);
      m := if x < l then x else l;
      forall k | k in s ensures m <= k {
        if k != x {
          assert k in rest;
        }
      }
    }
  }

  lemma LeastExists(s: set<nat>)
    requires s != {}
    ensures exists m :: m in s && forall k :: k in s ==> m <= k
  {
    var m := Least(s);
  }

  /**
   * `getFromIndex('files', 'by-path', path)`: the key of the record with that path; when
   * several records share it, the index yields the one with the least key.
   */
  function PathIndex(files: Files, path: string): (r: Option<NodeId>)
    ensures r.Some? ==> r.value in files && files[r.value].path == path
    ensures r.Some? ==> forall k :: k in files && files[k].path == path ==> r.value <= k
    ensures r.None? <==> forall k :: k in files ==> files[k].path != path
  {
    var ks := set k | k in files && files[k].path == path;
    assert forall k :: k in files && files[k].path == path ==> k in ks;
    if ks == {} then None
    else
      LeastExists(ks);
      var m :| m in ks && forall k :: k in ks ==> m <= k;
      Some(m)
  }

  /** What getByPath returns: the cached record for the path, else the store's. */
  function Resolve(files: Files, cache: Cache, path: string): Option<FileNode> {
    if path in cache then Some(cache[path])
    else match PathIndex(files, path)
      case None => None
      case Some(k) => Some(files[k])
  }

  /** The cache after getByPath: a record found in the store is cached under the path. */
  function AfterLookup(files: Files, cache: Cache, path: string): Cache {
    if path in cache then cache
    else match PathIndex(files, path)
      case None => cache
      case Some(k) => cache[path := files[k]]
  }

  /** The store keys each record by its own id. */
  ghost predicate KeyedById(files: Files) {
    forall k :: k in files ==> files[k].id == k
  }

  /** Each cache entry is a record whose path is its key. */
  ghost predicate CacheKeyedByPath(cache: Cache) {
    forall p :: p in cache ==> cache[p].path == p
  }

  /** `id` is not the id of any stored or cached record. */
  ghost predicate FreshId(files: Files, cache: Cache, id: NodeId) {
    id !in files && forall p :: p in cache ==> cache[p].id != id
  }

  lemma LookupKeepsCacheKeyed(files: Files, cache: Cache, path: string)
    requires CacheKeyedByPath(cache)
    ensures CacheKeyedByPath(AfterLookup(files, cache, path))
  {
  }

  // ---------------------------------------------------------------------------
  // Record updates
  // ---------------------------------------------------------------------------

  /** `new Blob([content]).size` for a string, `byteLength` for a buffer. */
  function ContentSize(c: Content): nat {
    match c
    case TextContent(t) => Utf8Length(t)
    case BinaryContent(b) => |b|
  }

  function SizeOf(kind: NodeKind): nat {
    match kind
    case FileKind(c, _) => ContentSize(c)
    case DirectoryKind(_) => 0
  }

  function Children(node: FileNode): seq<NodeId> {
    if node.IsDirectory() then node.kind.children else []
  }

  /** `children.push(id)` on a directory record. */
  function WithChild(dir: FileNode, id: NodeId): FileNode {
    if dir.IsDirectory() then dir.(kind := DirectoryKind(dir.kind.children + [id])) else dir
  }

  /** `children.filter(c => !(c in gone))`. */
  function Without(s: seq<NodeId>, gone: set<NodeId>): (r: seq<NodeId>)
    ensures forall x :: x in r <==> x in s && x !in gone
  {
    if |s| == 0 then []
    else (if s[0] in gone then [] else [s[0]]) + Without(s[1..], gone)
  }

  /** `children.filter(c => c !== id)` on a directory record. */
  function WithoutChild(dir: FileNode, id: NodeId): FileNode {
    if dir.IsDirectory() then dir.(kind := DirectoryKind(Without(dir.kind.children, {id}))) else dir
  }

  // ---------------------------------------------------------------------------
  // Creating a record (createDirectory and createFile)
  // ---------------------------------------------------------------------------

  /**
   * The outcome, store and cache of creating a record of kind `kind` named `name` under
   * `parentPath` with the fresh id `id`, as createDirectory/createFile do it.
   */
  function CreateEffect(files: Files, cache: Cache, user: string, id: NodeId, parentPath: string,
                        name: string, kind: NodeKind, perms: Option<FilePermissions>, now: int)
    : (Result<FileNode, FsError>, Files, Cache)
  {
    var parent := Resolve(files, cache, parentPath);
    var c1 := AfterLookup(files, cache, parentPath);
    if parent.None? || !parent.value.IsDirectory() then (Err(ParentNotFound(parentPath)), files, c1)
    else if !CanWrite(parent.value, user) then (Err(PermissionDenied), files, c1)
    else
      var path := JoinPath(parentPath, name);
      var c2 := AfterLookup(files, c1, path);
      if Resolve(files, c1, path).Some? then
        (Err(if kind.DirectoryKind? then DirectoryExists(path) else FileExists(path)), files, c2)
      else
        var node := FileNode(id, name, path, Some(parent.value.id), kind, SizeOf(kind), now, now,
                             perms.GetOr(DefaultPermissions(user)));
        var (files', cache') := CreatedState(files, c2, parent.value, node, parentPath);
        (Ok(node), files', cache')
  }

  /** The store and cache a successful create writes: the new record, and the parent with it as last child. */
  function CreatedState(files: Files, cache: Cache, parent: FileNode, node: FileNode, parentPath: string)
    : (Files, Cache)
  {
    var updated := WithChild(parent, node.id);
    (files[node.id := node][parent.id := updated], cache[parentPath := updated][node.path := node])
  }

  /**
   * A create fails, and leaves the store alone, when the parent path does not resolve to a
   * directory, when the parent is not writable, or when a record already resolves at the
   * joined path; otherwise the new record has the joined path, the parent as parent, and
   * its id is appended to the end of the parent's children.
   */
  lemma CreateRule(files: Files, cache: Cache, user: string, id: NodeId, parentPath: string,
                   name: string, kind: NodeKind, perms: Option<FilePermissions>, now: int)
    requires KeyedById(files) && CacheKeyedByPath(cache) && FreshId(files, cache, id)
    ensures var (r, files', cache') := CreateEffect(files, cache, user, id, parentPath, name, kind, perms, now);
      var parent := Resolve(files, cache, parentPath);
      var path := JoinPath(parentPath, name);
      && (r.Ok? <==> parent.Some? && parent.value.IsDirectory() && CanWrite(parent.value, user)
                     && Resolve(files, cache, path).None?)
      && (r.Err? ==> files' == files)
      && (r.Ok? ==>
            && r.value.path == path && r.value.name == name && r.value.id == id
            && r.value.parentId == Some(parent.value.id)
            && files'.Keys == files.Keys + {id, parent.value.id}
            && files'[id] == r.value
            && Children(files'[parent.value.id]) == Children(parent.value) + [id]
            && (forall k :: k in files && k != parent.value.id ==> files'[k] == files[k])
            && Resolve(files', cache', path) == Some(r.value)
            && KeyedById(files') && CacheKeyedByPath(cache'))
  {
    CreateSplit(files, cache, user, id, parentPath, name, kind, perms, now);
    LookupThenResolve(files, cache, parentPath, JoinPath(parentPath, name));
    if CreateSucceeds(files, cache, user, parentPath, name) {
      var p := Resolve(files, cache, parentPath).value;
      var node := NewRecord(files, cache, user, id, parentPath, name, kind, perms, now);
      CreatedFacts(files, AfterLookup(files, cache, parentPath), p, node, parentPath);
    }
  }

  /** A lookup changes what no path resolves to. */
  lemma LookupThenResolve(files: Files, cache: Cache, a: string, b: string)
    ensures Resolve(files, AfterLookup(files, cache, a), b) == Resolve(files, cache, b)
  {
  }

  lemma CreatedFacts(files: Files, c1: Cache, p: FileNode, node: FileNode, parentPath: string)
    requires CreateCase(files, c1, p, node, parentPath)
    ensures var (files', cache') := CreatedState(files, c1, p, node, parentPath);
      && files'.Keys == files.Keys + {node.id, p.id}
      && files'[node.id] == node
      && Children(files'[p.id]) == Children(p) + [node.id]
      && (forall k :: k in files && k != p.id ==> files'[k] == files[k])
      && Resolve(files', cache', node.path) == Some(node)
      && (node.path == JoinPath(parentPath, node.name) && node.parentId == Some(p.id) ==> KeyedById(files'))
      && CacheKeyedByPath(cache')
  {
  }

  // ---------------------------------------------------------------------------
  // Reading and writing file contents
  // ---------------------------------------------------------------------------

  /** What readFile returns for the record found at a path. */
  function ReadResult(found: Option<FileNode>, path: string, user: string): Result<Content, FsError> {
    if found.None? || !found.value.IsFile() then Err(FileNotFound(path))
    else if !CanRead(found.value, user) then Err(PermissionDenied)
    else Ok(found.value.kind.content)
  }

  /** The content writeFile stores: appended only when both the old and the new content are text. */
  function NewContent(current: Content, content: Content, append: bool): Content {
    if append && content.TextContent? && current.TextContent? then TextContent(current.text + content.text)
    else content
  }

  /** The outcome, store and cache of writeFile. */
  function WriteEffect(files: Files, cache: Cache, user: string, path: string, content: Content,
                       append: bool, now: int): (Outcome<FsError>, Files, Cache)
  {
    var found := Resolve(files, cache, path);
    var c1 := AfterLookup(files, cache, path);
    if found.None? || !found.value.IsFile() then (Fail(FileNotFound(path)), files, c1)
    else if !CanWrite(found.value, user) then (Fail(PermissionDenied), files, c1)
    else
      var file := found.value;
      var stored := NewContent(file.kind.content, content, append);
      var updated := file.(kind := FileKind(stored, file.kind.mimeType), size := ContentSize(stored), modifiedAt := now);
      (Pass, files[file.id := updated], c1[path := updated])
  }

  /**
   * After a successful write the path reads back the content written (the old text followed
   * by the new one when appending text) with a size that is its UTF-8 or byte length; the
   * store changes in the written record alone.
   */
  lemma WriteThenRead(files: Files, cache: Cache, user: string, path: string, content: Content,
                      append: bool, now: int)
    requires CacheKeyedByPath(cache)
    ensures var (r, files', cache') := WriteEffect(files, cache, user, path, content, append, now);
      var found := Resolve(files, cache, path);
      && (r.Pass? <==> found.Some? && found.value.IsFile() && CanWrite(found.value, user))
      && (r.Fail? ==> files' == files)
      && (r.Pass? ==>
            var before := found.value.kind.content;
            var expected := if append && content.TextContent? && before.TextContent?
                            then TextContent(before.text + content.text) else content;
            && ReadResult(Resolve(files', cache', path), path, user)
               == (if CanRead(found.value, user) then Ok(expected) else Err(PermissionDenied))
            && Resolve(files', cache', path).value.size == ContentSize(expected)
            && (append && content.TextContent? && before.TextContent? ==>
                  Resolve(files', cache', path).value.size == ContentSize(before) + ContentSize(content))
            && files'.Keys == files.Keys + {found.value.id}
            && forall k :: k in files && k != found.value.id ==> files'[k] == files[k])
  {
    var found := Resolve(files, cache, path);
    if found.Some? && found.value.IsFile() && append && content.TextContent? && found.value.kind.content.TextContent? {
      Utf8LengthAppend(found.value.kind.content.text, content.text);
    }
  }

  // ---------------------------------------------------------------------------
  // Listing a directory
  // ---------------------------------------------------------------------------

  /** The listDirectory comparator: directories before files, then by name. */
  predicate DirsFirstByName(a: FileNode, b: FileNode) {
    if a.IsDirectory() && !b.IsDirectory() then true
    else if !a.IsDirectory() && b.IsDirectory() then false
    else StrLeq(a.name, b.name)
  }

  lemma DirsFirstByNameIsTotalPreorder()
    ensures TotalPreorder(DirsFirstByName)
  {
    forall a: FileNode, b: FileNode ensures DirsFirstByName(a, b) || DirsFirstByName(b, a) {
      StrLeqTotal(a.name, b.name);
    }
    forall a: FileNode, b: FileNode, c: FileNode
      | DirsFirstByName(a, b) && DirsFirstByName(b, c)
      ensures DirsFirstByName(a, c)
    {
      if a.IsDirectory() == b.IsDirectory() && b.IsDirectory() == c.IsDirectory() {
        StrLeqTransitive(a.name, b.name, c.name);
      }
    }
  }

  /** The stored children, in the listed order, that the user may read. */
  function ReadableChildren(files: Files, ids: seq<NodeId>, user: string): (r: seq<FileNode>)
    ensures |r| <= |ids|
  {
    if |ids| == 0 then []
    else
      var rest := ReadableChildren(files, ids[1..], user);
      if ids[0] in files && CanRead(files[ids[0]], user) then [files[ids[0]]] + rest else rest
  }

  lemma {:induction false} ReadableChildrenMembers(files: Files, ids: seq<NodeId>, user: string)
    ensures forall n :: n in ReadableChildren(files, ids, user) <==>
      exists i :: 0 <= i < |ids| && ids[i] in files && files[ids[i]] == n && CanRead(n, user)
  {
    if |ids| > 0 {
      ReadableChildrenMembers(files, ids[1..], user);
      forall n ensures n in ReadableChildren(files, ids, user) <==>
        exists i :: 0 <= i < |ids| && ids[i] in files && files[ids[i]] == n && CanRead(n, user)
      {
        if exists i :: 0 <= i < |ids| && ids[i] in files && files[ids[i]] == n && CanRead(n, user) {
          var i :| 0 <= i < |ids| && ids[i] in files && files[ids[i]] == n && CanRead(n, user);
          if i > 0 {
            assert ids[1..][i - 1] == ids[i];
          }
        }
        if n in ReadableChildren(files, ids[1..], user) {
          var i :| 0 <= i < |ids[1..]| && ids[1..][i] in files && files[ids[1..][i]] == n && CanRead(n, user);
          assert ids[i + 1] == ids[1..][i];
        }
      }
    }
  }

  /** What listDirectory returns for the directory record found at a path. */
  function ListResult(files: Files, found: Option<FileNode>, path: string, user: string)
    : Result<seq<FileNode>, FsError>
  {
    if found.None? || !found.value.IsDirectory() then Err(NotADirectory(path))
    else if !CanRead(found.value, user) then Err(PermissionDenied)
    else Ok(SortBy(ReadableChildren(files, found.value.kind.children, user), DirsFirstByName))
  }

  /**
   * A listing holds exactly the stored children the user may read, each once per time the
   * directory names it, with every directory ahead of every file and names ascending within
   * each group.
   */
  lemma ListingShape(files: Files, dir: FileNode, path: string, user: string)
    requires dir.IsDirectory() && CanRead(dir, user)
    ensures var r := ListResult(files, Some(dir), path, user);
      && r.Ok?
      && multiset(r.value) == multiset(ReadableChildren(files, dir.kind.children, user))
      && (forall n :: n in r.value <==>
            exists i :: 0 <= i < |dir.kind.children| && dir.kind.children[i] in files
                        && files[dir.kind.children[i]] == n && CanRead(n, user))
      && SortedBy(r.value, DirsFirstByName)
      && (forall i, j :: 0 <= i < j < |r.value| && r.value[j].IsDirectory() ==> r.value[i].IsDirectory())
      && (forall i, j :: 0 <= i < j < |r.value| && r.value[i].IsDirectory() == r.value[j].IsDirectory()
            ==> StrLeq(r.value[i].name, r.value[j].name))
  {
    var rc := ReadableChildren(files, dir.kind.children, user);
    var r := SortBy(rc, DirsFirstByName);
    SortPermutes(rc, DirsFirstByName);
    DirsFirstByNameIsTotalPreorder();
    SortSorted(rc, DirsFirstByName);
    ReadableChildrenMembers(files, dir.kind.children, user);
    forall n ensures n in r <==> n in rc {
      assert n in r <==> n in multiset(r);
      assert n in rc <==> n in multiset(rc);
    }
    forall i, j | 0 <= i < j < |r| && r[j].IsDirectory() ensures r[i].IsDirectory() {
      assert DirsFirstByName(r[i], r[j]);
    }
    forall i, j | 0 <= i < j < |r| && r[i].IsDirectory() == r[j].IsDirectory()
      ensures StrLeq(r[i].name, r[j].name)
    {
      assert DirsFirstByName(r[i], r[j]);
    }
  }

  // ---------------------------------------------------------------------------
  // Moving a record (moveFile)
  // ---------------------------------------------------------------------------

  /** Every stored path and every cache key starts at the root. */
  ghost predicate AllAbsolute(files: Files, cache: Cache) {
    && (forall k :: k in files ==> files[k].path != "" && files[k].path[0] == '/')
    && (forall p :: p in cache ==> p != "" && p[0] == '/')
  }

  /** A path without the leading `/` resolves to nothing when every path starts at the root. */
  lemma RelativeNeverResolves(files: Files, cache: Cache, path: string)
    requires AllAbsolute(files, cache) && path != "" && path[0] != '/'
    ensures Resolve(files, cache, path).None?
    ensures AfterLookup(files, cache, path) == cache
  {
    assert path !in cache;
    assert PathIndex(files, path).None?;
  }

  lemma LookupKeepsAbsolute(files: Files, cache: Cache, path: string)
    requires AllAbsolute(files, cache)
    ensures AllAbsolute(files, AfterLookup(files, cache, path))
  {
  }

  /** The store and cache a successful move writes, given the two records it looked up. */
  function MovedState(files: Files, c2: Cache, s: FileNode, d: FileNode, sourcePath: string,
                      destParentPath: string, destPath: string, now: int): (Files, Cache)
  {
    var f1 := if s.parentId.Some? && s.parentId.value in files && files[s.parentId.value].IsDirectory()
              then files[s.parentId.value := WithoutChild(files[s.parentId.value], s.id)]
              else files;
    var moved := s.(name := DestName(destPath), path := destPath, parentId := Some(d.id), modifiedAt := now);
    var aliased := sourcePath == destParentPath;
    var newParent := WithChild(if aliased then moved else d, s.id);
    (f1[s.id := moved][d.id := newParent],
     (c2[destParentPath := newParent] - {sourcePath})[destPath := if aliased then newParent else moved])
  }

  /**
   * The outcome, store and cache of moveFile. The moved record is written with its new name,
   * path and parent; its descendants are not touched. The destination parent is the object
   * cached under its path, so when that path is the source path itself the push lands on the
   * moved record.
   */
  function MoveEffect(files: Files, cache: Cache, user: string, sourcePath: string, destPath: string,
                      now: int): (Outcome<FsError>, Files, Cache)
  {
    var source := Resolve(files, cache, sourcePath);
    var c1 := AfterLookup(files, cache, sourcePath);
    if source.None? then (Fail(SourceNotFound(sourcePath)), files, c1)
    else if !CanWrite(source.value, user) then (Fail(PermissionDenied), files, c1)
    else
      var s := source.value;
      var destParentPath := DestParentPath(destPath);
      var destParent := Resolve(files, c1, destParentPath);
      var c2 := AfterLookup(files, c1, destParentPath);
      if destParent.None? || !destParent.value.IsDirectory() then
        (Fail(DestinationParentNotFound(destParentPath)), files, c2)
      else if !CanWrite(destParent.value, user) then (Fail(PermissionDenied), files, c2)
      else
        var (f2, c3) := MovedState(files, c2, s, destParent.value, sourcePath, destParentPath, destPath, now);
        (Pass, f2, c3)
  }

  /**
   * A destination with two or more segments has a parent path without the leading `/`;
   * when every path starts at the root it never resolves, so such a move always fails
   * once the source is found and writable.
   */
  lemma MoveDeepDestinationFails(files: Files, cache: Cache, user: string, sourcePath: string,
                                 destPath: string, now: int)
    requires AllAbsolute(files, cache) && |SplitPath(destPath)| >= 2
    ensures var (r, files', _) := MoveEffect(files, cache, user, sourcePath, destPath, now);
      r.Fail? && files' == files
    ensures var s := Resolve(files, cache, sourcePath);
      s.Some? && CanWrite(s.value, user) ==>
        MoveEffect(files, cache, user, sourcePath, destPath, now).0
        == Fail(DestinationParentNotFound(DestParentPath(destPath)))
  {
    DestParentShape(destPath);
    LookupKeepsAbsolute(files, cache, sourcePath);
    RelativeNeverResolves(files, AfterLookup(files, cache, sourcePath), DestParentPath(destPath));
  }

  /**
   * A successful move rewrites only the moved record, its old parent's children and the
   * destination parent: every other record, its descendants included, keeps its path and
   * parent. (A destination parent that is a different copy of the source record overwrites
   * the moved record.)
   */
  lemma MoveFrame(files: Files, cache: Cache, user: string, sourcePath: string, destPath: string, now: int)
    ensures var (r, files', _) := MoveEffect(files, cache, user, sourcePath, destPath, now);
      r.Pass? ==>
        var s := Resolve(files, cache, sourcePath).value;
        var d := Resolve(files, AfterLookup(files, cache, sourcePath), DestParentPath(destPath)).value;
        && s.id in Children(files'[d.id])
        && (s.id != d.id || sourcePath == DestParentPath(destPath) ==>
              && files'[s.id].path == destPath
              && files'[s.id].name == DestName(destPath)
              && files'[s.id].parentId == Some(d.id))
        && files'.Keys == files.Keys + {s.id, d.id}
        && forall k :: k in files && k != s.id && k != d.id && Some(k) != s.parentId ==> files'[k] == files[k]
  {
  }

  /**
   * Renaming within one directory: the destination parent was looked up before the old
   * parent's children were filtered, so when it still lists the source the push adds the
   * source's id a second time.
   */
  lemma RenameInPlaceListsTwice(files: Files, cache: Cache, user: string, sourcePath: string,
                                destPath: string, now: int)
    requires var s := Resolve(files, cache, sourcePath);
      var d := Resolve(files, AfterLookup(files, cache, sourcePath), DestParentPath(destPath));
      && s.Some? && d.Some? && sourcePath != DestParentPath(destPath)
      && d.value.id != s.value.id && s.value.id in Children(d.value)
    ensures var (r, files', _) := MoveEffect(files, cache, user, sourcePath, destPath, now);
      r.Pass? ==>
        var s := Resolve(files, cache, sourcePath).value;
        var d := Resolve(files, AfterLookup(files, cache, sourcePath), DestParentPath(destPath)).value;
        multiset(Children(files'[d.id]))[s.id] >= 2
  {
    var (r, files', _) := MoveEffect(files, cache, user, sourcePath, destPath, now);
    if r.Pass? {
      var s := Resolve(files, cache, sourcePath).value;
      var d := Resolve(files, AfterLookup(files, cache, sourcePath), DestParentPath(destPath)).value;
      assert Children(files'[d.id]) == Children(d) + [s.id];
      assert multiset(Children(d))[s.id] >= 1;
    }
  }

  /**
   * Moving a directory to a destination whose parent path is the source path itself makes
   * the moved record its own parent and its own child.
   */
  lemma MoveUnderItselfMakesCycle(files: Files, cache: Cache, user: string, sourcePath: string,
                                  destPath: string, now: int)
    requires sourcePath == DestParentPath(destPath)
    ensures var (r, files', cache') := MoveEffect(files, cache, user, sourcePath, destPath, now);
      r.Pass? ==>
        var s := Resolve(files, cache, sourcePath).value;
        && files'[s.id].parentId == Some(s.id)
        && s.id in Children(files'[s.id])
        && files'[s.id].path == destPath
  {
    var (r, files', cache') := MoveEffect(files, cache, user, sourcePath, destPath, now);
    if r.Pass? {
      var s := Resolve(files, cache, sourcePath).value;
      var c1 := AfterLookup(files, cache, sourcePath);
      assert Resolve(files, c1, sourcePath) == Some(s);
    }
  }

  // ---------------------------------------------------------------------------
  // Copying (copyFile)
  // ---------------------------------------------------------------------------

  lemma JoinPathKeepsRoot(a: string, b: string)
    requires a != "" && a[0] == '/'
    ensures JoinPath(a, b) != "" && JoinPath(a, b)[0] == '/'
  {
    CollapseShape(a + "/" + b);
    assert (a + "/" + b)[0] == '/';
  }

  /** Every stored record has a non-empty name without `/`. */
  ghost predicate SimpleNames(files: Files) {
    forall k :: k in files ==> files[k].name != "" && SlashFree(files[k].name)
  }

  /** The success condition of a create, and the record it makes. */
  ghost predicate CreateSucceeds(files: Files, cache: Cache, user: string, parentPath: string, name: string) {
    var parent := Resolve(files, cache, parentPath);
    && parent.Some? && parent.value.IsDirectory() && CanWrite(parent.value, user)
    && Resolve(files, AfterLookup(files, cache, parentPath), JoinPath(parentPath, name)).None?
  }

  /** The record a successful create makes. */
  function NewRecord(files: Files, cache: Cache, user: string, id: NodeId, parentPath: string,
                     name: string, kind: NodeKind, perms: Option<FilePermissions>, now: int): FileNode
    requires Resolve(files, cache, parentPath).Some?
  {
    FileNode(id, name, JoinPath(parentPath, name), Some(Resolve(files, cache, parentPath).value.id), kind,
             SizeOf(kind), now, now, perms.GetOr(DefaultPermissions(user)))
  }

  /**
   * The two shapes of a create: a failure leaves the store and only adds lookups to the
   * cache; a success is the created state over the cache after the parent's lookup.
   */
  lemma CreateSplit(files: Files, cache: Cache, user: string, id: NodeId, parentPath: string,
                    name: string, kind: NodeKind, perms: Option<FilePermissions>, now: int)
    requires KeyedById(files) && CacheKeyedByPath(cache) && FreshId(files, cache, id)
    ensures var effect := CreateEffect(files, cache, user, id, parentPath, name, kind, perms, now);
      var c1 := AfterLookup(files, cache, parentPath);
      && (!CreateSucceeds(files, cache, user, parentPath, name) ==>
            effect.1 == files && (effect.2 == c1 || effect.2 == AfterLookup(files, c1, JoinPath(parentPath, name))))
      && (CreateSucceeds(files, cache, user, parentPath, name) ==>
            var p := Resolve(files, cache, parentPath).value;
            var node := NewRecord(files, cache, user, id, parentPath, name, kind, perms, now);
            && CreateCase(files, c1, p, node, parentPath)
            && effect.1 == CreatedState(files, c1, p, node, parentPath).0
            && effect.2 == CreatedState(files, c1, p, node, parentPath).1)
  {
    var effect := CreateEffect(files, cache, user, id, parentPath, name, kind, perms, now);
    var c1 := AfterLookup(files, cache, parentPath);
    if CreateSucceeds(files, cache, user, parentPath, name) {
      var p := Resolve(files, cache, parentPath).value;
      var node := NewRecord(files, cache, user, id, parentPath, name, kind, perms, now);
      assert CreateCase(files, c1, p, node, parentPath);
      assert effect.1 == CreatedState(files, c1, p, node, parentPath).0;
      assert effect.2 == CreatedState(files, c1, p, node, parentPath).1;
    } else {
      assert effect.1 == files;
      assert effect.2 == c1 || effect.2 == AfterLookup(files, c1, JoinPath(parentPath, name));
    }
  }

  /**
   * A create keeps the store coherent with the cache and leaves every existing record's name
   * and permissions as they were.
   */
  lemma CreateKeepsCoherent(files: Files, cache: Cache, user: string, id: NodeId, parentPath: string,
                            name: string, kind: NodeKind, perms: Option<FilePermissions>, now: int)
    requires KeyedById(files) && CacheKeyedByPath(cache) && FreshId(files, cache, id) && Coherent(files, cache)
    ensures var (_, files', cache') := CreateEffect(files, cache, user, id, parentPath, name, kind, perms, now);
      && Coherent(files', cache')
      && forall k :: k in files ==> k in files' && files'[k].name == files[k].name && files'[k].permissions == files[k].permissions
  {
    CreateSplit(files, cache, user, id, parentPath, name, kind, perms, now);
    var c1 := AfterLookup(files, cache, parentPath);
    LookupKeepsCoherent(files, cache, parentPath);
    LookupKeepsCoherent(files, c1, JoinPath(parentPath, name));
    if CreateSucceeds(files, cache, user, parentPath, name) {
      var p := Resolve(files, cache, parentPath).value;
      var node := NewRecord(files, cache, user, id, parentPath, name, kind, perms, now);
      CreatedCoherent(files, c1, p, node, parentPath);
    }
  }

  /** A create under a parent path that resolves keeps every path starting at the root. */
  lemma CreateKeepsAbsolute(files: Files, cache: Cache, user: string, id: NodeId, parentPath: string,
                            name: string, kind: NodeKind, perms: Option<FilePermissions>, now: int)
    requires KeyedById(files) && CacheKeyedByPath(cache) && FreshId(files, cache, id) && AllAbsolute(files, cache)
    ensures AllAbsolute(CreateEffect(files, cache, user, id, parentPath, name, kind, perms, now).1,
                        CreateEffect(files, cache, user, id, parentPath, name, kind, perms, now).2)
  {
    CreateSplit(files, cache, user, id, parentPath, name, kind, perms, now);
    var c1 := AfterLookup(files, cache, parentPath);
    LookupKeepsAbsolute(files, cache, parentPath);
    LookupKeepsAbsolute(files, c1, JoinPath(parentPath, name));
    if CreateSucceeds(files, cache, user, parentPath, name) {
      var p := Resolve(files, cache, parentPath).value;
      var node := NewRecord(files, cache, user, id, parentPath, name, kind, perms, now);
      JoinPathKeepsRoot(parentPath, name);
      CreatedAbsolute(files, c1, p, node, parentPath);
    }
  }

  /** A create of a simple name in a coherent store keeps every name simple. */
  lemma CreateKeepsNames(files: Files, cache: Cache, user: string, id: NodeId, parentPath: string,
                         name: string, kind: NodeKind, perms: Option<FilePermissions>, now: int)
    requires KeyedById(files) && CacheKeyedByPath(cache) && FreshId(files, cache, id)
    requires Coherent(files, cache) && SimpleNames(files) && name != "" && SlashFree(name)
    ensures SimpleNames(CreateEffect(files, cache, user, id, parentPath, name, kind, perms, now).1)
  {
    CreateSplit(files, cache, user, id, parentPath, name, kind, perms, now);
    var c1 := AfterLookup(files, cache, parentPath);
    LookupKeepsCoherent(files, cache, parentPath);
    if CreateSucceeds(files, cache, user, parentPath, name) {
      var p := Resolve(files, cache, parentPath).value;
      var node := NewRecord(files, cache, user, id, parentPath, name, kind, perms, now);
      CreatedNames(files, c1, p, node, parentPath);
    }
  }

  /** The success case of a create: the cached parent and the new record, whose path nothing has. */
  ghost predicate CreateCase(files: Files, c1: Cache, p: FileNode, node: FileNode, parentPath: string) {
    && KeyedById(files) && CacheKeyedByPath(c1) && FreshId(files, c1, node.id)
    && parentPath in c1 && c1[parentPath] == p && p.IsDirectory() && node.path !in c1
    && forall k :: k in files ==> files[k].path != node.path
  }

  lemma CreatedConsistent(files: Files, c1: Cache, p: FileNode, node: FileNode, parentPath: string, bound: nat)
    requires CreateCase(files, c1, p, node, parentPath) && Consistent(files, c1, bound) && node.id < bound
    ensures Consistent(CreatedState(files, c1, p, node, parentPath).0, CreatedState(files, c1, p, node, parentPath).1, bound)
  {
  }

  lemma CreatedCoherent(files: Files, c1: Cache, p: FileNode, node: FileNode, parentPath: string)
    requires CreateCase(files, c1, p, node, parentPath) && Coherent(files, c1)
    ensures var (files', cache') := CreatedState(files, c1, p, node, parentPath);
      && Coherent(files', cache')
      && forall k :: k in files ==> files'[k].name == files[k].name && files'[k].permissions == files[k].permissions
  {
    assert CopyOfStored(files, parentPath, p);
    CreatedUniquePaths(files, c1, p, node, parentPath);
    CreatedCopies(files, c1, p, node, parentPath);
  }

  lemma CreatedUniquePaths(files: Files, c1: Cache, p: FileNode, node: FileNode, parentPath: string)
    requires CreateCase(files, c1, p, node, parentPath) && UniquePaths(files) && CopyOfStored(files, parentPath, p)
    ensures UniquePaths(CreatedState(files, c1, p, node, parentPath).0)
  {
    var files' := CreatedState(files, c1, p, node, parentPath).0;
    forall j, k | j in files' && k in files' && files'[j].path == files'[k].path ensures j == k {
      if j != node.id && k != node.id {
        assert files'[j].path == files[j].path && files'[k].path == files[k].path;
      }
    }
  }

  lemma CreatedCopies(files: Files, c1: Cache, p: FileNode, node: FileNode, parentPath: string)
    requires CreateCase(files, c1, p, node, parentPath) && Coherent(files, c1) && CopyOfStored(files, parentPath, p)
    ensures var (files', cache') := CreatedState(files, c1, p, node, parentPath);
      forall q :: q in cache' ==> CopyOfStored(files', q, cache'[q])
  {
    var (files', cache') := CreatedState(files, c1, p, node, parentPath);
    forall q | q in cache' ensures CopyOfStored(files', q, cache'[q]) {
      if q != node.path && q != parentPath {
        assert CopyOfStored(files, q, c1[q]);
        assert c1[q].id != p.id;
      }
    }
  }

  lemma CreatedAbsolute(files: Files, c1: Cache, p: FileNode, node: FileNode, parentPath: string)
    requires CreateCase(files, c1, p, node, parentPath) && AllAbsolute(files, c1)
    requires node.path != "" && node.path[0] == '/'
    ensures AllAbsolute(CreatedState(files, c1, p, node, parentPath).0, CreatedState(files, c1, p, node, parentPath).1)
  {
  }

  lemma CreatedNames(files: Files, c1: Cache, p: FileNode, node: FileNode, parentPath: string)
    requires CreateCase(files, c1, p, node, parentPath) && Coherent(files, c1) && SimpleNames(files)
    requires node.name != "" && SlashFree(node.name)
    ensures SimpleNames(CreatedState(files, c1, p, node, parentPath).0)
  {
    assert CopyOfStored(files, parentPath, p);
  }

  /**
   * The shape ordinary use keeps: the cache agrees with the store, every path starts at the
   * root and every name is a single non-empty segment.
   */
  ghost predicate Tidy(files: Files, cache: Cache) {
    Coherent(files, cache) && AllAbsolute(files, cache) && SimpleNames(files)
  }

  lemma LookupKeepsTidy(files: Files, cache: Cache, path: string)
    requires KeyedById(files) && Tidy(files, cache)
    ensures Tidy(files, AfterLookup(files, cache, path))
  {
    LookupKeepsCoherent(files, cache, path);
    LookupKeepsAbsolute(files, cache, path);
  }

  /** `joinPath('/', '')` is the root itself. */
  lemma JoinRootEmpty()
    ensures JoinPath("/", "") == "/"
  {
    assert "/" + "/" + "" == "//";
    assert "//"[1..] == "/";
    assert CollapseSlashes("//") == CollapseSlashes("/") == "/";
    assert DropTrailingSlash("/") == "";
  }

  /**
   * The create copyFile makes at a destination keeps the store tidy: a destination without
   * segments names the root, which the create finds already there.
   */
  lemma CopyCreateKeepsTidy(files: Files, cache: Cache, user: string, id: NodeId, destPath: string,
                            kind: NodeKind, perms: Option<FilePermissions>, now: int)
    requires KeyedById(files) && CacheKeyedByPath(cache) && FreshId(files, cache, id) && Tidy(files, cache)
    ensures var (r, files', cache') :=
      CreateEffect(files, cache, user, id, DestParentPath(destPath), DestName(destPath), kind, perms, now);
      && Tidy(files', cache')
      && forall k :: k in files ==> k in files' && files'[k].permissions == files[k].permissions
  {
    var parentPath, name := DestParentPath(destPath), DestName(destPath);
    CreateKeepsCoherent(files, cache, user, id, parentPath, name, kind, perms, now);
    CreateKeepsAbsolute(files, cache, user, id, parentPath, name, kind, perms, now);
    DestNameShape(destPath);
    DestParentShape(destPath);
    if |SplitPath(destPath)| >= 1 {
      CreateKeepsNames(files, cache, user, id, parentPath, name, kind, perms, now);
    } else {
      JoinRootEmpty();
      LookupThenResolve(files, cache, "/", "/");
    }
  }

  /** A create keeps every cached path, each listing at least the children it listed. */
  lemma CreateKeepsCacheEntries(files: Files, cache: Cache, user: string, id: NodeId, parentPath: string,
                                name: string, kind: NodeKind, perms: Option<FilePermissions>, now: int)
    ensures var cache' := CreateEffect(files, cache, user, id, parentPath, name, kind, perms, now).2;
      forall q :: q in cache ==> q in cache' && forall x :: x in Children(cache[q]) ==> x in Children(cache'[q])
  {
    var c1 := AfterLookup(files, cache, parentPath);
    LookupThenResolve(files, cache, parentPath, JoinPath(parentPath, name));
  }

  /** What copyFile's source lookup keeps, and why a destination two segments deep never has a parent. */
  lemma CopyLookupFacts(files: Files, cache: Cache, sourcePath: string, destPath: string)
    requires KeyedById(files)
    ensures Tidy(files, cache) ==> Tidy(files, AfterLookup(files, cache, sourcePath))
    ensures AllAbsolute(files, cache) ==> AllAbsolute(files, AfterLookup(files, cache, sourcePath))
    ensures AllAbsolute(files, cache) && |SplitPath(destPath)| >= 2 ==>
      Resolve(files, AfterLookup(files, cache, sourcePath), DestParentPath(destPath)).None?
  {
    DestParentShape(destPath);
    if Tidy(files, cache) {
      LookupKeepsTidy(files, cache, sourcePath);
    }
    if AllAbsolute(files, cache) {
      LookupKeepsAbsolute(files, cache, sourcePath);
      if |SplitPath(destPath)| >= 2 {
        RelativeNeverResolves(files, AfterLookup(files, cache, sourcePath), DestParentPath(destPath));
      }
    }
  }

  /**
   * The directory create of copyFile: it fails when the destination is two segments deep; and
   * when the store was tidy and the source listed a readable child, a successful create leaves
   * the store's names simple, the paths absolute after looking the source up again, and the
   * source still listing a readable child.
   */
  lemma CopyDirectoryFacts(files: Files, cache: Cache, user: string, id: NodeId, sourcePath: string,
                           destPath: string, perms: Option<FilePermissions>, now: int)
    requires KeyedById(files) && CacheKeyedByPath(cache) && FreshId(files, cache, id) && sourcePath in cache
    ensures var (r, files', cache') := CreateEffect(files, cache, user, id, DestParentPath(destPath),
                                                    DestName(destPath), DirectoryKind([]), perms, now);
      && (AllAbsolute(files, cache) && |SplitPath(destPath)| >= 2 ==> r.Err?)
      && (r.Ok? ==>
            && r.value.path == JoinPath(DestParentPath(destPath), DestName(destPath))
            && r.value.permissions == perms.GetOr(DefaultPermissions(user))
            && r.value.IsDirectory())
      && (Tidy(files, cache) && Absolute(destPath) && r.Ok?
          && ReadableChildren(files, Children(cache[sourcePath]), user) != [] ==>
            && |SplitPath(destPath)| >= 1 && SimpleNames(files')
            && AllAbsolute(files', AfterLookup(files', cache', sourcePath))
            && KeyedById(files') && sourcePath in cache'
            && ReadableChildren(files', Children(cache'[sourcePath]), user) != [])
  {
    var destParentPath, destName := DestParentPath(destPath), DestName(destPath);
    var effect := CreateEffect(files, cache, user, id, destParentPath, destName, DirectoryKind([]), perms, now);
    DestParentShape(destPath);
    if AllAbsolute(files, cache) && |SplitPath(destPath)| >= 2 {
      RelativeNeverResolves(files, cache, destParentPath);
    }
    if Tidy(files, cache) && Absolute(destPath) && effect.0.Ok?
       && ReadableChildren(files, Children(cache[sourcePath]), user) != [] {
      CopyCreateKeepsTidy(files, cache, user, id, destPath, DirectoryKind([]), perms, now);
      CreateKeepsCacheEntries(files, cache, user, id, destParentPath, destName, DirectoryKind([]), perms, now);
      CreateRule(files, cache, user, id, destParentPath, destName, DirectoryKind([]), perms, now);
      LookupKeepsAbsolute(effect.1, effect.2, sourcePath);
      if |SplitPath(destPath)| == 0 {
        JoinRootEmpty();
        LookupThenResolve(files, cache, sourcePath, "/");
        assert false;
      }
      ReadableChildrenGrow(files, effect.1, Children(cache[sourcePath]), Children(effect.2[sourcePath]), user);
    }
  }

  /**
   * copyFile on a directory, from what its create did and whether copying the listing failed:
   * a destination two segments deep fails, a success is the created directory, and a tidy
   * store whose source lists a readable child fails.
   */
  lemma CopyDirectoryOutcome(files: Files, cache: Cache, user: string, id: NodeId, sourcePath: string,
                             destPath: string, perms: Option<FilePermissions>, now: int, listedErr: bool,
                             r: Result<FileNode, FsError>)
    requires KeyedById(files) && CacheKeyedByPath(cache) && FreshId(files, cache, id) && sourcePath in cache
    requires var (made, files', cache') := CreateEffect(files, cache, user, id, DestParentPath(destPath),
                                                        DestName(destPath), DirectoryKind([]), perms, now);
      && (made.Err? ==> r == made)
      && (made.Ok? && listedErr ==> r.Err?)
      && (made.Ok? && !listedErr ==> r == made)
      && ((made.Ok? && SimpleNames(files') && AllAbsolute(files', AfterLookup(files', cache', sourcePath))
           && Absolute(destPath) && |SplitPath(destPath)| >= 1 && sourcePath in cache'
           && ReadableChildren(files', Children(cache'[sourcePath]), user) != []) ==> listedErr)
    ensures AllAbsolute(files, cache) && |SplitPath(destPath)| >= 2 ==> r.Err?
    ensures r.Ok? ==>
      && r.value.path == JoinPath(DestParentPath(destPath), DestName(destPath))
      && r.value.permissions == perms.GetOr(DefaultPermissions(user))
      && r.value.IsDirectory()
    ensures Tidy(files, cache) && Absolute(destPath) && ReadableChildren(files, Children(cache[sourcePath]), user) != [] ==>
      r.Err?
  {
    CopyDirectoryFacts(files, cache, user, id, sourcePath, destPath, perms, now);
  }

  /** Records that keep their permissions, and no new readable ids, leave an empty readable listing empty. */
  lemma {:induction false} ReadableChildrenStayNone(files: Files, files': Files, ids: seq<NodeId>, user: string)
    requires ReadableChildren(files, ids, user) == []
    requires forall x :: x in ids && x in files' ==> x in files && files'[x].permissions == files[x].permissions
    ensures ReadableChildren(files', ids, user) == []
  {
    if |ids| > 0 {
      ReadableChildrenStayNone(files, files', ids[1..], user);
    }
  }

  /**
   * Copying a directory that lists no readable child, in a coherent store, to a destination
   * whose parent is not the source itself: after a successful create the source's listing is
   * still empty, so the copy is the create alone.
   */
  lemma EmptyDirectoryCopiesNoChild(files: Files, cache: Cache, user: string, id: NodeId, sourcePath: string,
                                    destPath: string, perms: Option<FilePermissions>, now: int)
    requires KeyedById(files) && CacheKeyedByPath(cache) && FreshId(files, cache, id) && Coherent(files, cache)
    requires var s := Resolve(files, cache, sourcePath);
      && s.Some? && s.value.IsDirectory() && CanRead(s.value, user)
      && ReadableChildren(files, Children(s.value), user) == [] && id !in Children(s.value)
    requires DestParentPath(destPath) != sourcePath
    ensures var made := CreateEffect(files, AfterLookup(files, cache, sourcePath), user, id, DestParentPath(destPath),
                                     DestName(destPath), DirectoryKind([]), perms, now);
      made.0.Ok? ==> ListResult(made.1, Resolve(made.1, made.2, sourcePath), sourcePath, user) == Ok([])
  {
    var looked := AfterLookup(files, cache, sourcePath);
    LookupKeepsCoherent(files, cache, sourcePath);
    var parentPath, name := DestParentPath(destPath), DestName(destPath);
    var made := CreateEffect(files, looked, user, id, parentPath, name, DirectoryKind([]), perms, now);
    var dir := looked[sourcePath];
    assert Resolve(files, cache, sourcePath) == Some(dir);
    if made.0.Ok? {
      CreateLeavesOthers(files, looked, user, id, parentPath, name, DirectoryKind([]), perms, now, sourcePath);
      ReadableChildrenStayNone(files, made.1, Children(dir), user);
      assert Resolve(made.1, made.2, sourcePath) == Some(dir);
    }
  }

  /**
   * A successful create leaves every other cached path as it was, and every record but the
   * new one keeps its permissions.
   */
  lemma CreateLeavesOthers(files: Files, cache: Cache, user: string, id: NodeId, parentPath: string,
                           name: string, kind: NodeKind, perms: Option<FilePermissions>, now: int, q: string)
    requires KeyedById(files) && Coherent(files, cache)
    requires q in cache && q != parentPath
    ensures var made := CreateEffect(files, cache, user, id, parentPath, name, kind, perms, now);
      made.0.Ok? ==>
        && q in made.2 && made.2[q] == cache[q]
        && forall x :: x in made.1 && x != id ==> x in files && made.1[x].permissions == files[x].permissions
  {
    var made := CreateEffect(files, cache, user, id, parentPath, name, kind, perms, now);
    if made.0.Ok? {
      var parent := Resolve(files, cache, parentPath).value;
      assert parent.id in files && parent.permissions == files[parent.id].permissions by {
        if parentPath !in cache {
          assert parent == files[PathIndex(files, parentPath).value];
        } else {
          assert CopyOfStored(files, parentPath, cache[parentPath]);
        }
      }
    }
  }

  /**
   * The first child a directory listing yields, copied below an absolute destination with at
   * least one segment, gets a destination of two or more segments.
   */
  lemma ListedChildGoesDeep(files: Files, dir: FileNode, path: string, listing: seq<FileNode>, user: string,
                             destPath: string)
    requires SimpleNames(files) && Absolute(destPath) && |SplitPath(destPath)| >= 1
    requires ReadableChildren(files, Children(dir), user) != []
    requires ListResult(files, Some(dir), path, user) == Ok(listing)
    ensures |listing| >= 1 && |SplitPath(JoinPath(destPath, listing[0].name))| >= 2
  {
    var listed := ReadableChildren(files, Children(dir), user);
    SortPermutes(listed, DirsFirstByName);
    assert |listing| == |listed| by {
      assert |multiset(listing)| == |multiset(listed)|;
    }
    ReadableChildrenMembers(files, Children(dir), user);
    assert listing[0] in multiset(listed);
    assert listing[0] in listed;
    ChildCopyDestination(destPath, listing[0].name);
  }

  lemma {:induction false} ReadableChildrenGrow(files: Files, files': Files, ids: seq<NodeId>, ids': seq<NodeId>,
                                                user: string)
    requires ReadableChildren(files, ids, user) != []
    requires forall x :: x in ids ==> x in ids'
    requires forall k :: k in files ==> k in files' && files'[k].permissions == files[k].permissions
    ensures ReadableChildren(files', ids', user) != []
  {
    ReadableChildrenMembers(files, ids, user);
    ReadableChildrenMembers(files', ids', user);
    var n := ReadableChildren(files, ids, user)[0];
    assert n in ReadableChildren(files, ids, user);
    var i :| 0 <= i < |ids| && ids[i] in files && files[ids[i]] == n && CanRead(n, user);
    assert ids[i] in ids';
    var j :| 0 <= j < |ids'| && ids'[j] == ids[i];
    assert files'[ids'[j]] in ReadableChildren(files', ids', user);
  }

  /**
   * The destination of a listed child's copy: below an absolute destination it has one
   * more segment, so its parent path never starts at the root.
   */
  lemma ChildCopyDestination(destPath: string, childName: string)
    requires Absolute(destPath) && |SplitPath(destPath)| >= 1 && childName != "" && SlashFree(childName)
    ensures |SplitPath(JoinPath(destPath, childName))| >= 2
  {
    SplitJoinPath(destPath, childName);
  }

  // ---------------------------------------------------------------------------
  // Deleting records (deleteFile)
  // ---------------------------------------------------------------------------

  /** The ids `c0` lists that `c1` no longer does. */
  function Dropped(c0: seq<NodeId>, c1: seq<NodeId>): set<NodeId> {
    set x | x in c0 && x !in c1
  }

  /**
   * `after` is `before` with some records deleted and, in the directories that remain,
   * some children filtered out; a child is only filtered out when no record with its id
   * remains. Nothing else changes.
   */
  ghost predicate Pruned(before: Files, after: Files) {
    && after.Keys <= before.Keys
    && forall k :: k in after ==>
         && after[k] == (if before[k].IsDirectory() then before[k].(kind := DirectoryKind(Children(after[k])))
                         else before[k])
         && Children(after[k]) == Without(Children(before[k]), Dropped(Children(before[k]), Children(after[k])))
         && forall x :: x in Dropped(Children(before[k]), Children(after[k])) ==> x !in after
  }

  lemma {:induction false} WithoutNothing(s: seq<NodeId>, gone: set<NodeId>)
    requires forall x :: x in s ==> x !in gone
    ensures Without(s, gone) == s
  {
    if |s| > 0 {
      WithoutNothing(s[1..], gone);
    }
  }

  lemma {:induction false} WithoutTwice(s: seq<NodeId>, a: set<NodeId>, b: set<NodeId>)
    ensures Without(Without(s, a), b) == Without(s, a + b)
  {
    if |s| > 0 {
      WithoutTwice(s[1..], a, b);
      if s[0] !in a {
        var t := Without(s, a);
        assert t == [s[0]] + Without(s[1..], a);
        assert t[0] == s[0] && t[1..] == Without(s[1..], a);
        assert Without(t, b) == (if s[0] in b then [] else [s[0]]) + Without(t[1..], b);
      } else {
        assert Without(s, a) == Without(s[1..], a);
        assert Without(s, a + b) == Without(s[1..], a + b);
      }
    }
  }

  lemma {:induction false} WithoutAgree(s: seq<NodeId>, a: set<NodeId>, b: set<NodeId>)
    requires forall x :: x in s ==> (x in a <==> x in b)
    ensures Without(s, a) == Without(s, b)
  {
    if |s| > 0 {
      WithoutAgree(s[1..], a, b);
    }
  }

  lemma PrunedReflexive(files: Files)
    ensures Pruned(files, files)
  {
    forall k | k in files
      ensures Children(files[k]) == Without(Children(files[k]), Dropped(Children(files[k]), Children(files[k])))
    {
      WithoutNothing(Children(files[k]), Dropped(Children(files[k]), Children(files[k])));
    }
  }

  lemma PrunedTransitive(a: Files, b: Files, c: Files)
    requires Pruned(a, b) && Pruned(b, c)
    ensures Pruned(a, c)
  {
    forall k | k in c
      ensures c[k] == (if a[k].IsDirectory() then a[k].(kind := DirectoryKind(Children(c[k]))) else a[k])
      ensures Children(c[k]) == Without(Children(a[k]), Dropped(Children(a[k]), Children(c[k])))
      ensures forall x :: x in Dropped(Children(a[k]), Children(c[k])) ==> x !in c
    {
      var c0, c1, c2 := Children(a[k]), Children(b[k]), Children(c[k]);
      var d1, d2, d02 := Dropped(c0, c1), Dropped(c1, c2), Dropped(c0, c2);
      WithoutTwice(c0, d1, d2);
      WithoutAgree(c0, d1 + d2, d02);
    }
  }

  /** Removing one record and filtering its id out of one stored directory prunes the store. */
  lemma UnlinkPrunes(files: Files, parent: NodeId, id: NodeId)
    requires parent in files && files[parent].IsDirectory()
    ensures Pruned(files, files[parent := WithoutChild(files[parent], id)] - {id})
  {
    var after := files[parent := WithoutChild(files[parent], id)] - {id};
    PrunedReflexive(files);
    if parent in after {
      var c0 := Children(files[parent]);
      var c1 := Without(c0, {id});
      assert Children(after[parent]) == c1;
      WithoutAgree(c0, {id}, Dropped(c0, c1));
    }
  }

  /**
   * A store the cache agrees with: no two records share a path, and every cached record is
   * a copy of a stored one under its stored path that differs at most by listing more
   * children.
   */
  ghost predicate Coherent(files: Files, cache: Cache) {
    UniquePaths(files) && forall p :: p in cache ==> CopyOfStored(files, p, cache[p])
  }

  ghost predicate UniquePaths(files: Files) {
    forall j, k :: j in files && k in files && files[j].path == files[k].path ==> j == k
  }

  /** `copy`, cached under `p`, is the stored record with that path, perhaps listing more children. */
  ghost predicate CopyOfStored(files: Files, p: string, copy: FileNode) {
    && copy.id in files && files[copy.id].path == p
    && copy.(kind := files[copy.id].kind) == files[copy.id]
    && copy.IsDirectory() == files[copy.id].IsDirectory()
    && forall x :: x in Children(files[copy.id]) ==> x in Children(copy)
  }

  /** In a coherent store a record's own path resolves to that record, or a copy listing more children. */
  lemma CoherentResolvesOwnPath(files: Files, cache: Cache, k: NodeId)
    requires KeyedById(files) && Coherent(files, cache) && k in files
    ensures var r := Resolve(files, cache, files[k].path);
      r.Some? && r.value.id == k && forall x :: x in Children(files[k]) ==> x in Children(r.value)
  {
    var path := files[k].path;
    if path !in cache {
      var m := PathIndex(files, path);
      assert m.Some?;
    }
  }

  /** In a coherent store whatever a path resolves to is the stored record with that path. */
  lemma CoherentResolve(files: Files, cache: Cache, path: string)
    requires KeyedById(files) && Coherent(files, cache) && Resolve(files, cache, path).Some?
    ensures var n := Resolve(files, cache, path).value;
      n.id in files && files[n.id].path == path
  {
  }

  lemma LookupKeepsCoherent(files: Files, cache: Cache, path: string)
    requires KeyedById(files)
    ensures Coherent(files, cache) ==> Coherent(files, AfterLookup(files, cache, path))
  {
  }

  /** Each deleted record's stored children are deleted too. */
  ghost predicate ChildrenGoneWith(before: Files, after: Files) {
    forall x :: x in before && x !in after ==> forall c :: c in Children(before[x]) ==> c !in after
  }

  /** One child deletion of deleteFile's loop keeps what the loop has established so far. */
  lemma DeleteStep(start: Files, startCache: Cache, before: Files, beforeCache: Cache, after: Files,
                   afterCache: Cache, ids: seq<NodeId>, i: nat, passed: bool)
    requires i < |ids|
    requires Pruned(start, before) && Pruned(before, after)
    requires Coherent(start, startCache) ==>
      Coherent(before, beforeCache) && ChildrenGoneWith(start, before) && forall j :: 0 <= j < i ==> ids[j] !in before
    requires Coherent(before, beforeCache) ==> Coherent(after, afterCache)
    requires Coherent(before, beforeCache) && passed ==> ChildrenGoneWith(before, after) && ids[i] !in after
    ensures Pruned(start, after)
    ensures Coherent(start, startCache) ==> Coherent(after, afterCache)
    ensures Coherent(start, startCache) && passed ==>
      ChildrenGoneWith(start, after) && forall j :: 0 <= j <= i ==> ids[j] !in after
  {
    PrunedTransitive(start, before, after);
    if Coherent(start, startCache) && passed {
      ChildrenGoneWithTransitive(start, before, after);
    }
  }

  /** One child deletion of that loop also keeps the deletions within any closed set holding the ids. */
  lemma WithinStep(start: Files, startCache: Cache, before: Files, beforeCache: Cache, after: Files,
                   afterCache: Cache, ids: seq<NodeId>, i: nat)
    requires i < |ids|
    requires NoNewListings(start, startCache, before, beforeCache)
    requires NoNewListings(before, beforeCache, after, afterCache)
    requires Coherent(start, startCache) ==> Coherent(before, beforeCache)
    requires Coherent(start, startCache) ==>
      forall reach :: (forall j :: 0 <= j < |ids| ==> ids[j] in reach) && ClosedUnder(start, startCache, reach) ==>
        RemovedWithin(start, before, reach)
    requires Coherent(before, beforeCache) ==>
      forall reach :: ids[i] in reach && ClosedUnder(before, beforeCache, reach) ==> RemovedWithin(before, after, reach)
    ensures NoNewListings(start, startCache, after, afterCache)
    ensures Coherent(start, startCache) ==>
      forall reach :: (forall j :: 0 <= j < |ids| ==> ids[j] in reach) && ClosedUnder(start, startCache, reach) ==>
        RemovedWithin(start, after, reach)
  {
    if Coherent(start, startCache) {
      forall reach | (forall j :: 0 <= j < |ids| ==> ids[j] in reach) && ClosedUnder(start, startCache, reach)
        ensures RemovedWithin(start, after, reach)
      {
        assert ClosedUnder(before, beforeCache, reach);
        assert RemovedWithin(before, after, reach);
      }
    }
  }

  /**
   * The children phase of deleteFile: deleting what the directory `n`, cached under `path`,
   * lists keeps the deletions within any closed set holding `n`.
   */
  lemma ChildrenPhaseWithin(start: Files, startCache: Cache, path: string, n: FileNode, mid: Files)
    requires path in startCache && startCache[path] == n && n.IsDirectory()
    requires Coherent(start, startCache) ==>
      forall reach ::
        (forall i :: 0 <= i < |n.kind.children| ==> n.kind.children[i] in reach) && ClosedUnder(start, startCache, reach) ==>
          RemovedWithin(start, mid, reach)
    ensures Coherent(start, startCache) ==>
      forall reach :: n.id in reach && ClosedUnder(start, startCache, reach) ==> RemovedWithin(start, mid, reach)
  {
    forall reach | n.id in reach && ClosedUnder(start, startCache, reach)
      ensures forall i :: 0 <= i < |n.kind.children| ==> n.kind.children[i] in reach
    {
      assert Children(n) == n.kind.children;
    }
  }

  /** Each id a surviving directory no longer lists was a record whose stored parent that directory is. */
  ghost predicate FilteredFromParents(before: Files, after: Files) {
    forall k, x :: k in before && k in after && x in Children(before[k]) && x !in Children(after[k]) ==>
      x in before && before[x].parentId == Some(k)
  }

  lemma FilteredFromParentsTransitive(a: Files, b: Files, c: Files)
    requires Pruned(a, b) && Pruned(b, c) && FilteredFromParents(a, b) && FilteredFromParents(b, c)
    ensures FilteredFromParents(a, c)
  {
    PrunedKeepsParents(a, b);
    FilteredThroughSurvivors(a, b, c);
  }

  /** Every record that survives pruning keeps its parent. */
  lemma PrunedKeepsParents(a: Files, b: Files)
    requires Pruned(a, b)
    ensures forall x :: x in b ==> x in a && b[x].parentId == a[x].parentId
  {
  }

  /** The two filtering steps compose when the records of the middle store kept their parents. */
  lemma FilteredThroughSurvivors(a: Files, b: Files, c: Files)
    requires c.Keys <= b.Keys && forall x :: x in b ==> x in a && b[x].parentId == a[x].parentId
    requires FilteredFromParents(a, b) && FilteredFromParents(b, c)
    ensures FilteredFromParents(a, c)
  {
    forall k, x | k in a && k in c && x in Children(a[k]) && x !in Children(c[k])
      ensures x in a && a[x].parentId == Some(k)
    {
      if x in Children(b[k]) {
        assert x in b && b[x].parentId == Some(k);
      }
    }
  }

  /**
   * Unlinking `n`, cached under `path` when deleteFile began, filters it out of its stored
   * parent only, which is the parent the store recorded for it.
   */
  lemma RemovalFiltersParent(start: Files, startCache: Cache, path: string, n: FileNode, before: Files, after: Files)
    requires path in startCache && startCache[path] == n
    requires Pruned(start, before) && after == Unlink(before, n)
    requires Coherent(start, startCache) ==> FilteredFromParents(start, before)
    ensures Coherent(start, startCache) ==> FilteredFromParents(start, after)
  {
    if Coherent(start, startCache) {
      assert CopyOfStored(start, path, n);
      UnlinkFiltersParent(start, before, n);
    }
  }

  lemma UnlinkFiltersParent(start: Files, before: Files, n: FileNode)
    requires n.id in start && start[n.id].parentId == n.parentId
    requires before.Keys <= start.Keys && FilteredFromParents(start, before)
    requires forall k :: k in before ==> forall x :: x in Children(before[k]) ==> x in Children(start[k])
    ensures FilteredFromParents(start, Unlink(before, n))
  {
    var after := Unlink(before, n);
    forall k, x | k in start && k in after && x in Children(start[k]) && x !in Children(after[k])
      ensures x in start && start[x].parentId == Some(k)
    {
      assert k in before;
      if x in Children(before[k]) {
        UnlinkDrops(before, n, k, x);
      }
    }
  }

  /** The lookup of deleteFile caches a copy of a stored record, which changes no closed set. */
  lemma LookupThenWithin(start: Files, startCache: Cache, path: string, n: FileNode, after: Files, afterCache: Cache)
    requires KeyedById(start) && Resolve(start, startCache, path) == Some(n)
    requires NoNewListings(start, AfterLookup(start, startCache, path), after, afterCache)
    requires Coherent(start, AfterLookup(start, startCache, path)) ==>
      forall reach :: n.id in reach && ClosedUnder(start, AfterLookup(start, startCache, path), reach) ==>
        RemovedWithin(start, after, reach)
    ensures NoNewListings(start, startCache, after, afterCache)
    ensures Coherent(start, startCache) ==>
      forall reach :: n.id in reach && ClosedUnder(start, startCache, reach) ==> RemovedWithin(start, after, reach)
  {
    LookupListsNothingNew(start, startCache, path);
    LookupKeepsCoherent(start, startCache, path);
  }

  /** Removing the record `id` itself, the last step of deleteFile, keeps the deletions within. */
  lemma RemovalWithin(start: Files, startCache: Cache, mid: Files, midCache: Cache, after: Files,
                      afterCache: Cache, id: NodeId)
    requires NoNewListings(start, startCache, mid, midCache) && NoNewListings(mid, midCache, after, afterCache)
    requires Coherent(start, startCache) ==>
      forall reach :: id in reach && ClosedUnder(start, startCache, reach) ==> RemovedWithin(start, mid, reach)
    requires forall k :: k in mid && k !in after ==> k == id
    requires after.Keys <= mid.Keys
    ensures NoNewListings(start, startCache, after, afterCache)
    ensures Coherent(start, startCache) ==>
      forall reach :: id in reach && ClosedUnder(start, startCache, reach) ==> RemovedWithin(start, after, reach)
  {
  }

  lemma ChildrenGoneWithTransitive(a: Files, b: Files, c: Files)
    requires Pruned(a, b) && Pruned(b, c) && ChildrenGoneWith(a, b) && ChildrenGoneWith(b, c)
    ensures ChildrenGoneWith(a, c)
  {
    forall x, y | x in a && x !in c && y in Children(a[x]) ensures y !in c {
      if x in b && y in b {
        assert y in Children(b[x]) by {
          assert y !in Dropped(Children(a[x]), Children(b[x]));
        }
      }
    }
  }

  /** `chain` walks from its first record down stored children lists. */
  ghost predicate ChildChain(files: Files, chain: seq<NodeId>) {
    forall i :: 0 <= i < |chain| - 1 ==> chain[i] in files && chain[i + 1] in Children(files[chain[i]])
  }

  /**
   * When deleted records take their children with them, deleting a record deletes every
   * record descending from it through the children lists.
   */
  lemma {:induction false} DescendantsGone(before: Files, after: Files, chain: seq<NodeId>)
    requires ChildrenGoneWith(before, after) && after.Keys <= before.Keys
    requires |chain| >= 1 && ChildChain(before, chain) && chain[0] !in after
    ensures forall i :: 0 <= i < |chain| ==> chain[i] !in after
    decreases |chain|
  {
    if |chain| > 1 {
      DescendantsGone(before, after, chain[..|chain| - 1]);
      var last := |chain| - 2;
      assert chain[..|chain| - 1][last] == chain[last];
      assert chain[last] in before && chain[last + 1] in Children(before[chain[last]]);
    }
  }

  /**
   * `reach` is closed under the children lists: it holds every child that a record it
   * holds lists, in the store or in a cached copy.
   */
  ghost predicate ClosedUnder(files: Files, cache: Cache, reach: set<NodeId>) {
    && (forall k, c :: k in reach && k in files && c in Children(files[k]) ==> c in reach)
    && (forall p, c :: p in cache && cache[p].id in reach && c in Children(cache[p]) ==> c in reach)
  }

  /** Every record `before` holds and `after` does not is in `reach`. */
  ghost predicate RemovedWithin(before: Files, after: Files, reach: set<NodeId>) {
    forall k :: k in before && k !in after ==> k in reach
  }

  /** The second state lists no child the first did not: a set closed in the first stays closed. */
  ghost predicate NoNewListings(files0: Files, cache0: Cache, files1: Files, cache1: Cache) {
    forall reach :: ClosedUnder(files0, cache0, reach) ==> ClosedUnder(files1, cache1, reach)
  }

  lemma LookupListsNothingNew(files: Files, cache: Cache, path: string)
    requires KeyedById(files)
    ensures NoNewListings(files, cache, files, AfterLookup(files, cache, path))
  {
  }

  /** Pruning the store and dropping cache entries lists nothing new. */
  lemma PruningListsNothingNew(files0: Files, cache0: Cache, files1: Files, cache1: Cache)
    requires Pruned(files0, files1)
    requires forall p :: p in cache1 ==> p in cache0 && cache1[p] == cache0[p]
    ensures NoNewListings(files0, cache0, files1, cache1)
  {
    forall reach | ClosedUnder(files0, cache0, reach) ensures ClosedUnder(files1, cache1, reach) {
      forall k, c | k in reach && k in files1 && c in Children(files1[k]) ensures c in reach {
        assert c in Children(files0[k]);
      }
    }
  }

  /** The only id unlinking filters out of a directory is the record's own, from its parent. */
  lemma UnlinkDrops(files: Files, node: FileNode, k: NodeId, x: NodeId)
    requires k in files && k in Unlink(files, node)
    requires x in Children(files[k]) && x !in Children(Unlink(files, node)[k])
    ensures x == node.id && node.parentId == Some(k)
  {
    var p := node.parentId;
    if p.Some? && p.value in files && files[p.value].IsDirectory() && p.value == k {
      assert Unlink(files, node)[k] == WithoutChild(files[k], node.id);
    }
  }

  /** After unlinking, the record's stored parent no longer lists it. */
  lemma UnlinkLeavesParent(files: Files, node: FileNode)
    requires node.parentId.Some? && node.parentId.value in Unlink(files, node)
    ensures node.id !in Children(Unlink(files, node)[node.parentId.value])
  {
  }

  lemma UnlinkKeepsCoherent(files: Files, cache: Cache, node: FileNode, path: string)
    requires KeyedById(files) && Coherent(files, cache)
    requires node.id in files ==> files[node.id].path == path
    ensures Coherent(Unlink(files, node), cache - {path})
  {
    var after := Unlink(files, node);
    var c := cache - {path};
    forall p | p in c
      ensures c[p].id in after && after[c[p].id].path == p
      ensures forall x :: x in Children(after[c[p].id]) ==> x in Children(c[p])
    {
      assert c[p].id != node.id;
      var k := c[p].id;
      if node.parentId.Some? && node.parentId.value == k && files[k].IsDirectory() {
        assert Children(after[k]) == Without(Children(files[k]), {node.id});
      }
    }
  }

  /**
   * The end of deleteFile: `n`, what `path` resolved to, is unlinked from the store `before`
   * that deleting its children left behind.
   */
  lemma DeleteRecordFacts(start: Files, startCache: Cache, path: string, n: FileNode, before: Files,
                          beforeCache: Cache, after: Files, afterCache: Cache)
    requires KeyedById(start) && Resolve(start, startCache, path) == Some(n)
    requires Pruned(start, before) && after == Unlink(before, n) && Pruned(before, after)
    requires !n.IsDirectory() ==> before == start
    requires Coherent(start, AfterLookup(start, startCache, path)) ==> Coherent(before, beforeCache)
    requires n.IsDirectory() && Coherent(start, AfterLookup(start, startCache, path)) ==>
      ChildrenGoneWith(start, before) && forall i :: 0 <= i < |n.kind.children| ==> n.kind.children[i] !in before
    requires Coherent(before, beforeCache) && (n.id in before ==> before[n.id].path == path) ==>
      Coherent(after, afterCache)
    ensures Pruned(start, after)
    ensures Coherent(start, startCache) ==>
      && Coherent(after, afterCache)
      && ChildrenGoneWith(start, after)
      && forall c :: c in Children(n) ==> c !in after
  {
    PrunedTransitive(start, before, after);
    if Coherent(start, startCache) {
      LookupKeepsCoherent(start, startCache, path);
      CoherentResolve(start, startCache, path);
      CoherentResolvesOwnPath(start, startCache, n.id);
      assert forall x :: x in Children(n) ==> x !in before;
      RemovalTakesChildren(start, before, after, n);
    }
  }

  /**
   * Removing a record whose listed children are already gone, after a pruning that took
   * children with it, still takes children with it.
   */
  lemma RemovalTakesChildren(a: Files, b: Files, c: Files, n: FileNode)
    requires Pruned(a, b) && ChildrenGoneWith(a, b) && c == Unlink(b, n)
    requires forall x :: x in Children(n) ==> x !in b
    requires n.id in a ==> forall x :: x in Children(a[n.id]) ==> x in Children(n)
    ensures ChildrenGoneWith(a, c) && forall x :: x in Children(n) ==> x !in c
  {
    UnlinkIsPruning(b, n);
    assert ChildrenGoneWith(b, c) by {
      forall x, y | x in b && x !in c && y in Children(b[x]) ensures y !in c {
        assert x == n.id;
        assert y !in Dropped(Children(a[x]), Children(b[x]));
      }
    }
    ChildrenGoneWithTransitive(a, b, c);
  }

  /** Removing a record from the store and filtering it out of its stored parent. */
  function Unlink(files: Files, node: FileNode): Files {
    var p := node.parentId;
    if p.Some? && p.value in files && files[p.value].IsDirectory() then
      files[p.value := WithoutChild(files[p.value], node.id)] - {node.id}
    else files - {node.id}
  }

  lemma UnlinkIsPruning(files: Files, node: FileNode)
    ensures Pruned(files, Unlink(files, node))
  {
    var p := node.parentId;
    if p.Some? && p.value in files && files[p.value].IsDirectory() {
      UnlinkPrunes(files, p.value, node.id);
    } else {
      PrunedReflexive(files);
    }
  }

  /** The number of records with ids below `n` that are files (`isFile`) or directories. */
  function CountBelow(files: Files, n: nat, isFile: bool): nat {
    if n == 0 then 0
    else CountBelow(files, n - 1, isFile) + (if n - 1 in files && files[n - 1].IsFile() == isFile then 1 else 0)
  }

  lemma {:induction false} CountBelowIsCardinality(files: Files, n: nat, isFile: bool)
    ensures CountBelow(files, n, isFile) == |set k | k in files && k < n && files[k].IsFile() == isFile|
  {
    if n > 0 {
      CountBelowIsCardinality(files, n - 1, isFile);
      var below := set k | k in files && k < n - 1 && files[k].IsFile() == isFile;
      if n - 1 in files && files[n - 1].IsFile() == isFile {
        assert (set k | k in files && k < n && files[k].IsFile() == isFile) == below + {n - 1};
      } else {
        assert (set k | k in files && k < n && files[k].IsFile() == isFile) == below;
      }
    }
  }

  /** The sum of the sizes of the records with ids below `n`, in id order. */
  function SizeBelow(files: Files, n: nat): int {
    if n == 0 then 0
    else SizeBelow(files, n - 1) + (if n - 1 in files then files[n - 1].size else 0)
  }

  lemma {:induction false} ReadableChildrenSnoc(files: Files, ids: seq<NodeId>, x: NodeId, user: string)
    ensures ReadableChildren(files, ids + [x], user)
      == ReadableChildren(files, ids, user) + (if x in files && CanRead(files[x], user) then [files[x]] else [])
  {
    if |ids| == 0 {
      assert ids + [x] == [x];
    } else {
      assert (ids + [x])[1..] == ids[1..] + [x];
      ReadableChildrenSnoc(files, ids[1..], x, user);
    }
  }

  /**
   * The invariant of the file system object: records keyed by id, cache entries keyed by
   * path, and every id below the next fresh one.
   */
  ghost predicate Consistent(files: Files, cache: Cache, bound: nat) {
    && KeyedById(files) && CacheKeyedByPath(cache)
    && (forall k :: k in files ==> k < bound)
    && (forall p :: p in cache ==> cache[p].id < bound)
  }

  lemma MovedStateConsistent(files: Files, c2: Cache, s: FileNode, d: FileNode, sourcePath: string,
                             destParentPath: string, destPath: string, now: int, bound: nat)
    requires Consistent(files, c2, bound)
    requires sourcePath in c2 && c2[sourcePath] == s && destParentPath in c2 && c2[destParentPath] == d
    ensures Consistent(MovedState(files, c2, s, d, sourcePath, destParentPath, destPath, now).0,
                       MovedState(files, c2, s, d, sourcePath, destParentPath, destPath, now).1, bound)
  {
    var aliased := sourcePath == destParentPath;
    var moved := s.(name := DestName(destPath), path := destPath, parentId := Some(d.id), modifiedAt := now);
    var newParent := WithChild(if aliased then moved else d, s.id);
    var c3 := c2[destParentPath := newParent] - {sourcePath};
    assert CacheKeyedByPath(c3) by {
      forall p | p in c3 ensures c3[p].path == p {
        if p == destParentPath {
          assert !aliased;
        }
      }
    }
  }

  lemma LookupKeepsConsistent(files: Files, cache: Cache, path: string, bound: nat)
    requires Consistent(files, cache, bound)
    ensures Consistent(files, AfterLookup(files, cache, path), bound)
  {
  }

  lemma MoveKeepsConsistent(files: Files, cache: Cache, user: string, sourcePath: string, destPath: string,
                            now: int, bound: nat)
    requires Consistent(files, cache, bound)
    ensures Consistent(MoveEffect(files, cache, user, sourcePath, destPath, now).1,
                       MoveEffect(files, cache, user, sourcePath, destPath, now).2, bound)
  {
    var effect := MoveEffect(files, cache, user, sourcePath, destPath, now);
    var c1 := AfterLookup(files, cache, sourcePath);
    var source := Resolve(files, cache, sourcePath);
    LookupKeepsConsistent(files, cache, sourcePath, bound);
    if source.Some? && CanWrite(source.value, user) {
      var destParentPath := DestParentPath(destPath);
      var c2 := AfterLookup(files, c1, destParentPath);
      var dest := Resolve(files, c1, destParentPath);
      LookupKeepsConsistent(files, c1, destParentPath, bound);
      if dest.Some? && dest.value.IsDirectory() && CanWrite(dest.value, user) {
        MovedStateConsistent(files, c2, source.value, dest.value, sourcePath, destParentPath, destPath, now, bound);
        assert effect.1 == MovedState(files, c2, source.value, dest.value, sourcePath, destParentPath, destPath, now).0;
        assert effect.2 == MovedState(files, c2, source.value, dest.value, sourcePath, destParentPath, destPath, now).1;
      } else {
        assert effect.1 == files && effect.2 == c2;
      }
    } else {
      assert effect.1 == files && effect.2 == c1;
    }
  }

  lemma UnlinkKeepsConsistent(files: Files, cache: Cache, node: FileNode, path: string, bound: nat)
    requires Consistent(files, cache, bound)
    ensures Consistent(Unlink(files, node), cache - {path}, bound)
  {
  }

  // ---------------------------------------------------------------------------
  // The file system object
  // ---------------------------------------------------------------------------

  class VirtualFileSystem {
    /** The `files` collection of the entity store. */
    var files: Files
    /** The path-keyed entries of the cache `Map`. */
    var cache: Cache
    var currentUserId: string
    /** The next fresh record id (stands for `uuidv4()`). */
    var nextId: nat

    ghost predicate Valid()
      reads this
    {
      Consistent(files, cache, nextId)
    }

    /** The singleton over the records the store already holds, with an empty cache. */
    constructor(stored: Files, firstFreeId: nat)
      requires KeyedById(stored) && forall k :: k in stored ==> k < firstFreeId
      ensures Valid()
      ensures files == stored && cache == map[] && currentUserId == "system" && nextId == firstFreeId
    {
      files := stored;
      cache := map[];
      currentUserId := "system";
      nextId := firstFreeId;
    }

    /** getByPath: the cached record, else the store's, which is then cached. */
    method GetByPath(path: string) returns (r: Option<FileNode>)
      requires Valid()
      modifies this`cache
      ensures Valid()
      ensures r == Resolve(old(files), old(cache), path) && cache == AfterLookup(old(files), old(cache), path)
      ensures r.Some? ==> path in cache && cache[path] == r.value
    {
      if path in cache {
        r := Some(cache[path]);
        return;
      }
      var key := PathIndex(files, path);
      match key {
        case None =>
          r := None;
        case Some(k) =>
          var node := files[k];
          cache := cache[path := node];
          r := Some(node);
      }
    }

    /**
     * initialize: when `/` does not resolve, the root is created under `/`, which then
     * cannot be found as a parent; the call fails before any directory is made.
     */
    method Initialize(userId: string, now: int) returns (r: Outcome<FsError>)
      requires Valid()
      modifies this`currentUserId, this`files, this`cache, this`nextId
      ensures Valid() && currentUserId == userId && files == old(files) && nextId == old(nextId)
      ensures Resolve(old(files), old(cache), "/").Some? ==>
        r == Pass && cache == AfterLookup(old(files), old(cache), "/")
      ensures Resolve(old(files), old(cache), "/").None? ==>
        r == Fail(ParentNotFound("/")) && cache == old(cache)
    {
      currentUserId := userId;
      var root := GetByPath("/");
      if root.None? {
        var created := CreateDirectory("/", "root", Some(RootPermissions), now);
        if created.Err? {
          return Fail(created.error);
        }
        // The source goes on to create home, apps, system, tmp and shared under `/`; the
        // root's own creation cannot succeed here, so none of them is reached.
        assert false;
      }
      r := Pass;
    }

    /** The shared body of createDirectory and createFile. */
    method Create(parentPath: string, name: string, kind: NodeKind, permissions: Option<FilePermissions>,
                  now: int) returns (r: Result<FileNode, FsError>)
      requires Valid()
      modifies this`files, this`cache, this`nextId
      ensures Valid()
      ensures (r, files, cache)
        == CreateEffect(old(files), old(cache), currentUserId, old(nextId), parentPath, name, kind, permissions, now)
      ensures nextId == if r.Ok? then old(nextId) + 1 else old(nextId)
    {
      var parent := GetByPath(parentPath);
      if parent.None? || !parent.value.IsDirectory() {
        return Err(ParentNotFound(parentPath));
      }
      if !CanWrite(parent.value, currentUserId) {
        return Err(PermissionDenied);
      }
      var path := JoinPath(parentPath, name);
      var existing := GetByPath(path);
      if existing.Some? {
        return Err(if kind.DirectoryKind? then DirectoryExists(path) else FileExists(path));
      }
      var node := FileNode(nextId, name, path, Some(parent.value.id), kind, SizeOf(kind), now, now,
                           permissions.GetOr(DefaultPermissions(currentUserId)));
      CreatedConsistent(files, cache, parent.value, node, parentPath, nextId + 1);
      nextId := nextId + 1;
      files := files[node.id := node];
      var updated := WithChild(parent.value, node.id);
      files := files[updated.id := updated];
      cache := cache[parentPath := updated][path := node];
      r := Ok(node);
    }

    method CreateDirectory(parentPath: string, name: string, permissions: Option<FilePermissions>, now: int)
      returns (r: Result<FileNode, FsError>)
      requires Valid()
      modifies this`files, this`cache, this`nextId
      ensures Valid()
      ensures (r, files, cache) == CreateEffect(old(files), old(cache), currentUserId, old(nextId),
                                                parentPath, name, DirectoryKind([]), permissions, now)
      ensures nextId == if r.Ok? then old(nextId) + 1 else old(nextId)
    {
      r := Create(parentPath, name, DirectoryKind([]), permissions, now);
    }

    method CreateFile(parentPath: string, name: string, content: Content, mimeType: string,
                      permissions: Option<FilePermissions>, now: int)
      returns (r: Result<FileNode, FsError>)
      requires Valid()
      modifies this`files, this`cache, this`nextId
      ensures Valid()
      ensures (r, files, cache) == CreateEffect(old(files), old(cache), currentUserId, old(nextId),
                                                parentPath, name, FileKind(content, mimeType), permissions, now)
      ensures nextId == if r.Ok? then old(nextId) + 1 else old(nextId)
    {
      r := Create(parentPath, name, FileKind(content, mimeType), permissions, now);
    }

    /** listDirectory: the readable stored children, directories first, then by name. */
    method ListDirectory(path: string) returns (r: Result<seq<FileNode>, FsError>)
      requires Valid()
      modifies this`cache
      ensures Valid()
      ensures r == ListResult(files, Resolve(files, old(cache), path), path, currentUserId)
      ensures cache == AfterLookup(files, old(cache), path)
    {
      var dir := GetByPath(path);
      if dir.None? || !dir.value.IsDirectory() {
        return Err(NotADirectory(path));
      }
      if !CanRead(dir.value, currentUserId) {
        return Err(PermissionDenied);
      }
      var ids := dir.value.kind.children;
      var children: seq<FileNode> := [];
      var i := 0;
      while i < |ids|
        invariant 0 <= i <= |ids|
        invariant children == ReadableChildren(files, ids[..i], currentUserId)
        invariant cache == AfterLookup(files, old(cache), path)
      {
        ReadableChildrenSnoc(files, ids[..i], ids[i], currentUserId);
        assert ids[..i + 1] == ids[..i] + [ids[i]];
        if ids[i] in files && CanRead(files[ids[i]], currentUserId) {
          children := children + [files[ids[i]]];
        }
        i := i + 1;
      }
      assert ids[..i] == ids;
      r := Ok(SortBy(children, DirsFirstByName));
    }

    method ReadFile(path: string) returns (r: Result<Content, FsError>)
      requires Valid()
      modifies this`cache
      ensures Valid()
      ensures r == ReadResult(Resolve(files, old(cache), path), path, currentUserId)
      ensures cache == AfterLookup(files, old(cache), path)
    {
      var file := GetByPath(path);
      if file.None? || !file.value.IsFile() {
        return Err(FileNotFound(path));
      }
      if !CanRead(file.value, currentUserId) {
        return Err(PermissionDenied);
      }
      r := Ok(file.value.kind.content);
    }

    method WriteFile(path: string, content: Content, append: bool, now: int) returns (r: Outcome<FsError>)
      requires Valid()
      modifies this`files, this`cache
      ensures Valid()
      ensures (r, files, cache) == WriteEffect(old(files), old(cache), currentUserId, path, content, append, now)
    {
      var file := GetByPath(path);
      if file.None? || !file.value.IsFile() {
        return Fail(FileNotFound(path));
      }
      if !CanWrite(file.value, currentUserId) {
        return Fail(PermissionDenied);
      }
      var f := file.value;
      var stored := NewContent(f.kind.content, content, append);
      var updated := f.(kind := FileKind(stored, f.kind.mimeType), size := ContentSize(stored), modifiedAt := now);
      files := files[f.id := updated];
      cache := cache[path := updated];
      r := Pass;
    }

    method MoveFile(sourcePath: string, destPath: string, now: int) returns (r: Outcome<FsError>)
      requires Valid()
      modifies this`files, this`cache
      ensures Valid()
      ensures (r, files, cache) == MoveEffect(old(files), old(cache), currentUserId, sourcePath, destPath, now)
    {
      MoveKeepsConsistent(files, cache, currentUserId, sourcePath, destPath, now, nextId);
      var source := GetByPath(sourcePath);
      if source.None? {
        return Fail(SourceNotFound(sourcePath));
      }
      if !CanWrite(source.value, currentUserId) {
        return Fail(PermissionDenied);
      }
      var s := source.value;
      var destParentPath := DestParentPath(destPath);
      var destParent := GetByPath(destParentPath);
      if destParent.None? || !destParent.value.IsDirectory() {
        return Fail(DestinationParentNotFound(destParentPath));
      }
      if !CanWrite(destParent.value, currentUserId) {
        return Fail(PermissionDenied);
      }
      var d := destParent.value;
      if s.parentId.Some? && s.parentId.value in files && files[s.parentId.value].IsDirectory() {
        var oldParent := files[s.parentId.value];
        files := files[oldParent.id := WithoutChild(oldParent, s.id)];
      }
      var moved := s.(name := DestName(destPath), path := destPath, parentId := Some(d.id), modifiedAt := now);
      files := files[s.id := moved];
      var aliased := sourcePath == destParentPath;
      var newParent := WithChild(if aliased then moved else d, s.id);
      files := files[d.id := newParent];
      cache := cache[destParentPath := newParent];
      cache := cache - {sourcePath};
      cache := cache[destPath := if aliased then newParent else moved];
      r := Pass;
    }

    /**
     * deleteFile: the record found at the path, after its stored children are deleted
     * through their own paths, is removed and filtered out of its stored parent. The
     * recursion is `fuel` calls deep at most.
     */
    method DeleteFile(path: string, fuel: nat) returns (r: Outcome<FsError>)
      requires Valid()
      modifies this`files, this`cache
      decreases fuel, 1
      ensures Valid()
      ensures Pruned(old(files), files)
      ensures fuel == 0 ==> r == Fail(StackOverflow) && files == old(files) && cache == old(cache)
      ensures var n := Resolve(old(files), old(cache), path);
        && (fuel > 0 && n.None? ==> r == Fail(FileNotFound(path)) && files == old(files) && cache == old(cache))
        && (fuel > 0 && n.Some? && !CanWrite(n.value, currentUserId) ==>
              r == Fail(PermissionDenied) && files == old(files) && cache == AfterLookup(old(files), old(cache), path))
        && (r.Pass? ==> n.Some? && CanWrite(n.value, currentUserId) && n.value.id !in files && path !in cache)
        && (fuel > 0 && n.Some? && CanWrite(n.value, currentUserId) && !n.value.IsDirectory() ==> r.Pass?)
        && (r.Pass? && !n.value.IsDirectory() ==>
              files == Unlink(old(files), n.value) && cache == AfterLookup(old(files), old(cache), path) - {path})
        && (r.Pass? && n.value.parentId.Some? && n.value.parentId.value in files ==>
              n.value.id !in Children(files[n.value.parentId.value]))
      ensures NoNewListings(old(files), old(cache), files, cache)
      ensures old(Coherent(files, cache)) ==> Coherent(files, cache)
      ensures old(Coherent(files, cache)) && r.Pass? ==>
        && ChildrenGoneWith(old(files), files)
        && forall c :: c in Children(Resolve(old(files), old(cache), path).value) ==> c !in files
      ensures old(Coherent(files, cache)) && Resolve(old(files), old(cache), path).Some? ==>
        forall reach :: Resolve(old(files), old(cache), path).value.id in reach && ClosedUnder(old(files), old(cache), reach) ==>
          RemovedWithin(old(files), files, reach)
      ensures old(Coherent(files, cache)) ==> FilteredFromParents(old(files), files)
    {
      PrunedReflexive(files);
      if fuel == 0 {
        return Fail(StackOverflow);
      }
      LookupKeepsCoherent(files, cache, path);
      LookupListsNothingNew(files, cache, path);
      var node := GetByPath(path);
      if node.None? {
        return Fail(FileNotFound(path));
      }
      if !CanWrite(node.value, currentUserId) {
        return Fail(PermissionDenied);
      }
      r := DeleteFound(node.value, path, fuel);
      LookupThenWithin(old(files), old(cache), path, node.value, files, cache);
    }

    /**
     * deleteFile past its lookup and permission check: `n`, cached under `path`, has its
     * children deleted when it is a directory, and is then removed.
     */
    method DeleteFound(n: FileNode, path: string, fuel: nat) returns (r: Outcome<FsError>)
      requires Valid() && fuel > 0 && path in cache && cache[path] == n
      modifies this`files, this`cache
      decreases fuel, 0
      ensures Valid()
      ensures Pruned(old(files), files)
      ensures r.Pass? ==> n.id !in files && path !in cache
      ensures !n.IsDirectory() ==> r.Pass? && files == Unlink(old(files), n) && cache == old(cache) - {path}
      ensures r.Pass? && n.parentId.Some? && n.parentId.value in files ==> n.id !in Children(files[n.parentId.value])
      ensures NoNewListings(old(files), old(cache), files, cache)
      ensures old(Coherent(files, cache)) ==> Coherent(files, cache)
      ensures old(Coherent(files, cache)) && r.Pass? ==>
        ChildrenGoneWith(old(files), files) && forall c :: c in Children(n) ==> c !in files
      ensures old(Coherent(files, cache)) ==>
        forall reach :: n.id in reach && ClosedUnder(old(files), old(cache), reach) ==> RemovedWithin(old(files), files, reach)
      ensures old(Coherent(files, cache)) ==> FilteredFromParents(old(files), files)
    {
      PrunedReflexive(files);
      if n.IsDirectory() {
        r := DeleteChildren(n.kind.children, fuel - 1);
        ChildrenPhaseWithin(old(files), old(cache), path, n, files);
        if r.Fail? {
          return;
        }
      }
      ghost var before, cacheBefore := files, cache;
      RemoveRecord(n, path);
      DeleteRecordFacts(old(files), old(cache), path, n, before, cacheBefore, files, cache);
      RemovalWithin(old(files), old(cache), before, cacheBefore, files, cache, n.id);
      RemovalFiltersParent(old(files), old(cache), path, n, before, files);
      if n.parentId.Some? && n.parentId.value in files {
        UnlinkLeavesParent(before, n);
      }
      r := Pass;
    }

    /** The end of deleteFile: the record leaves its stored parent, the store and the cache. */
    method RemoveRecord(n: FileNode, path: string)
      requires Valid()
      modifies this`files, this`cache
      ensures Valid()
      ensures files == Unlink(old(files), n) && cache == old(cache) - {path}
      ensures n.id !in files && path !in cache && forall k :: k in old(files) && k !in files ==> k == n.id
      ensures Pruned(old(files), files)
      ensures NoNewListings(old(files), old(cache), files, cache)
      ensures old(Coherent(files, cache)) && (n.id in old(files) ==> old(files)[n.id].path == path) ==>
        Coherent(files, cache)
    {
      UnlinkKeepsConsistent(files, cache, n, path, nextId);
      ghost var coherent := Coherent(files, cache) && (n.id in files ==> files[n.id].path == path);
      if coherent {
        UnlinkKeepsCoherent(files, cache, n, path);
      }
      UnlinkIsPruning(files, n);
      PruningListsNothingNew(files, cache, Unlink(files, n), cache - {path});
      files := Unlink(files, n);
      cache := cache - {path};
    }

    /** The loop of deleteFile over a directory's children: each one still stored is deleted by its path. */
    method DeleteChildren(ids: seq<NodeId>, fuel: nat) returns (r: Outcome<FsError>)
      requires Valid()
      modifies this`files, this`cache
      decreases fuel, 3
      ensures Valid()
      ensures Pruned(old(files), files)
      ensures old(Coherent(files, cache)) ==> Coherent(files, cache)
      ensures old(Coherent(files, cache)) && r.Pass? ==>
        ChildrenGoneWith(old(files), files) && forall i :: 0 <= i < |ids| ==> ids[i] !in files
      ensures NoNewListings(old(files), old(cache), files, cache)
      ensures old(Coherent(files, cache)) ==>
        forall reach :: (forall i :: 0 <= i < |ids| ==> ids[i] in reach) && ClosedUnder(old(files), old(cache), reach) ==>
          RemovedWithin(old(files), files, reach)
      ensures old(Coherent(files, cache)) ==> FilteredFromParents(old(files), files)
    {
      PrunedReflexive(files);
      var i := 0;
      while i < |ids|
        invariant 0 <= i <= |ids|
        invariant Valid()
        invariant Pruned(old(files), files)
        invariant old(Coherent(files, cache)) ==>
          Coherent(files, cache) && ChildrenGoneWith(old(files), files) && forall j :: 0 <= j < i ==> ids[j] !in files
        invariant NoNewListings(old(files), old(cache), files, cache)
        invariant old(Coherent(files, cache)) ==>
          forall reach :: (forall j :: 0 <= j < |ids| ==> ids[j] in reach) && ClosedUnder(old(files), old(cache), reach) ==>
            RemovedWithin(old(files), files, reach)
        invariant old(Coherent(files, cache)) ==> FilteredFromParents(old(files), files)
      {
        ghost var before, cacheBefore := files, cache;
        var rc := DeleteChild(ids[i], fuel);
        DeleteStep(old(files), old(cache), before, cacheBefore, files, cache, ids, i, rc.Pass?);
        WithinStep(old(files), old(cache), before, cacheBefore, files, cache, ids, i);
        if old(Coherent(files, cache)) {
          FilteredFromParentsTransitive(old(files), before, files);
        }
        if rc.Fail? {
          return rc;
        }
        i := i + 1;
      }
      r := Pass;
    }

    /** One step of that loop: `storage.get` the child and, when it is stored, delete it by its path. */
    method DeleteChild(id: NodeId, fuel: nat) returns (r: Outcome<FsError>)
      requires Valid()
      modifies this`files, this`cache
      decreases fuel, 2
      ensures Valid()
      ensures Pruned(old(files), files)
      ensures old(Coherent(files, cache)) ==> Coherent(files, cache)
      ensures old(Coherent(files, cache)) && r.Pass? ==> ChildrenGoneWith(old(files), files) && id !in files
      ensures NoNewListings(old(files), old(cache), files, cache)
      ensures old(Coherent(files, cache)) ==>
        forall reach :: id in reach && ClosedUnder(old(files), old(cache), reach) ==> RemovedWithin(old(files), files, reach)
      ensures old(Coherent(files, cache)) ==> FilteredFromParents(old(files), files)
    {
      if id !in files {
        PrunedReflexive(files);
        return Pass;
      }
      ghost var coherent := Coherent(files, cache);
      if coherent {
        CoherentResolvesOwnPath(files, cache, id);
      }
      r := DeleteFile(files[id].path, fuel);
    }

    /**
     * copyFile: a file is copied by one create at the destination; a directory by a create
     * followed by copying each listed child below the destination. The recursion is `fuel`
     * calls deep at most.
     */
    method CopyFile(sourcePath: string, destPath: string, now: int, fuel: nat) returns (r: Result<FileNode, FsError>)
      requires Valid()
      modifies this`files, this`cache, this`nextId
      decreases fuel, 2
      ensures Valid()
      ensures old(files).Keys <= files.Keys && old(nextId) <= nextId
      ensures fuel == 0 ==> r == Err(StackOverflow) && files == old(files) && cache == old(cache) && nextId == old(nextId)
      ensures var s := Resolve(old(files), old(cache), sourcePath);
        && (fuel > 0 && s.None? ==> r == Err(SourceNotFound(sourcePath)) && files == old(files) && nextId == old(nextId))
        && (fuel > 0 && s.Some? && !CanRead(s.value, currentUserId) ==>
              r == Err(PermissionDenied) && files == old(files) && nextId == old(nextId))
        && (fuel > 0 && s.Some? && CanRead(s.value, currentUserId) && s.value.IsFile() ==>
              (r, files, cache) == CreateEffect(old(files), AfterLookup(old(files), old(cache), sourcePath),
                                                currentUserId, old(nextId), DestParentPath(destPath),
                                                DestName(destPath), s.value.kind, Some(s.value.permissions), now))
        && (fuel > 0 && s.Some? && CanRead(s.value, currentUserId) && s.value.IsDirectory() ==>
              var made := CreateEffect(old(files), AfterLookup(old(files), old(cache), sourcePath), currentUserId,
                                       old(nextId), DestParentPath(destPath), DestName(destPath), DirectoryKind([]),
                                       Some(s.value.permissions), now);
              && (made.0.Err? ==> r == made.0 && files == old(files) && nextId == old(nextId))
              && (made.0.Ok? && ListResult(made.1, Resolve(made.1, made.2, sourcePath), sourcePath, currentUserId) == Ok([]) ==>
                    r == made.0 && files == made.1 && nextId == old(nextId) + 1))
        && (r.Ok? ==>
              && s.Some? && CanRead(s.value, currentUserId)
              && r.value.path == JoinPath(DestParentPath(destPath), DestName(destPath))
              && r.value.permissions == s.value.permissions
              && r.value.IsDirectory() == s.value.IsDirectory())
      ensures old(AllAbsolute(files, cache)) && |SplitPath(destPath)| >= 2 ==> r.Err?
      ensures var s := Resolve(old(files), old(cache), sourcePath);
        (old(Tidy(files, cache)) && Absolute(destPath) && s.Some? && s.value.IsDirectory()
         && ReadableChildren(old(files), Children(s.value), currentUserId) != []) ==> r.Err?
    {
      if fuel == 0 {
        return Err(StackOverflow);
      }
      CopyLookupFacts(files, cache, sourcePath, destPath);
      var source := GetByPath(sourcePath);
      if source.None? {
        return Err(SourceNotFound(sourcePath));
      }
      var s := source.value;
      if !CanRead(s, currentUserId) {
        return Err(PermissionDenied);
      }
      var destParentPath := DestParentPath(destPath);
      var destName := DestName(destPath);
      if s.IsFile() {
        r := CreateFile(destParentPath, destName, s.kind.content, s.kind.mimeType, Some(s.permissions), now);
      } else {
        r := CopyDirectory(s, sourcePath, destPath, now, fuel);
      }
    }

    /** The directory half of copyFile, once the source `s` has been looked up and may be read. */
    method CopyDirectory(s: FileNode, sourcePath: string, destPath: string, now: int, fuel: nat)
      returns (r: Result<FileNode, FsError>)
      requires Valid() && fuel > 0 && s.IsDirectory()
      requires sourcePath in cache && cache[sourcePath] == s
      modifies this`files, this`cache, this`nextId
      decreases fuel, 1
      ensures Valid()
      ensures old(files).Keys <= files.Keys && old(nextId) <= nextId
      ensures r.Ok? ==>
        && r.value.path == JoinPath(DestParentPath(destPath), DestName(destPath))
        && r.value.permissions == s.permissions
        && r.value.IsDirectory()
      ensures old(AllAbsolute(files, cache)) && |SplitPath(destPath)| >= 2 ==> r.Err?
      ensures (old(Tidy(files, cache)) && Absolute(destPath)
               && ReadableChildren(old(files), Children(s), currentUserId) != []) ==> r.Err?
      ensures var made := CreateEffect(old(files), old(cache), currentUserId, old(nextId), DestParentPath(destPath),
                                       DestName(destPath), DirectoryKind([]), Some(s.permissions), now);
        && (made.0.Err? ==> r == made.0 && files == old(files) && nextId == old(nextId))
        && (made.0.Ok? && ListResult(made.1, Resolve(made.1, made.2, sourcePath), sourcePath, currentUserId) == Ok([]) ==>
              r == made.0 && files == made.1 && nextId == old(nextId) + 1)
    {
      var destParentPath := DestParentPath(destPath);
      var destName := DestName(destPath);
      var newDir := CreateDirectory(destParentPath, destName, Some(s.permissions), now);
      r := newDir;
      ghost var listedErr := false;
      if newDir.Ok? {
        var copied := CopyListing(sourcePath, destPath, now, fuel - 1);
        listedErr := copied.Err?;
        if copied.Err? {
          r := Err(copied.error);
        }
      }
      CopyDirectoryOutcome(old(files), old(cache), currentUserId, old(nextId), sourcePath, destPath, Some(s.permissions),
                           now, listedErr, r);
    }

    /** The listing of the source directory after its copy was created, and the copies of its children. */
    method CopyListing(sourcePath: string, destPath: string, now: int, fuel: nat) returns (r: Result<(), FsError>)
      requires Valid()
      modifies this`files, this`cache, this`nextId
      decreases fuel, 4
      ensures Valid()
      ensures old(files).Keys <= files.Keys && old(nextId) <= nextId
      ensures (old(SimpleNames(files) && AllAbsolute(files, AfterLookup(files, cache, sourcePath)))
               && Absolute(destPath) && |SplitPath(destPath)| >= 1 && old(sourcePath in cache)
               && old(ReadableChildren(files, Children(cache[sourcePath]), currentUserId)) != []) ==> r.Err?
      ensures ListResult(old(files), Resolve(old(files), old(cache), sourcePath), sourcePath, currentUserId) == Ok([]) ==>
        r == Ok(()) && files == old(files) && nextId == old(nextId)
    {
      ghost var premise := SimpleNames(files) && AllAbsolute(files, AfterLookup(files, cache, sourcePath))
                           && Absolute(destPath) && |SplitPath(destPath)| >= 1 && sourcePath in cache
                           && ReadableChildren(files, Children(cache[sourcePath]), currentUserId) != [];
      ghost var listedFrom := cache;
      var children := ListDirectory(sourcePath);
      if children.Err? {
        return Err(children.error);
      }
      if premise {
        ListedChildGoesDeep(files, listedFrom[sourcePath], sourcePath, children.value, currentUserId, destPath);
      }
      r := CopyChildren(children.value, destPath, now, fuel);
    }

    /** The loop of copyFile over a directory's listing: each child is copied below `destPath`. */
    method CopyChildren(children: seq<FileNode>, destPath: string, now: int, fuel: nat)
      returns (r: Result<(), FsError>)
      requires Valid()
      modifies this`files, this`cache, this`nextId
      decreases fuel, 3
      ensures Valid()
      ensures old(files).Keys <= files.Keys && old(nextId) <= nextId
      ensures (old(AllAbsolute(files, cache)) && |children| >= 1
               && |SplitPath(JoinPath(destPath, children[0].name))| >= 2) ==> r.Err?
      ensures |children| == 0 ==> r == Ok(()) && files == old(files) && cache == old(cache) && nextId == old(nextId)
    {
      ghost var first := old(AllAbsolute(files, cache)) && |children| >= 1
                         && |SplitPath(JoinPath(destPath, children[0].name))| >= 2;
      var i := 0;
      while i < |children|
        invariant 0 <= i <= |children|
        invariant Valid()
        invariant old(files).Keys <= files.Keys && old(nextId) <= nextId
        invariant first ==> i == 0 && AllAbsolute(files, cache)
        invariant |children| == 0 ==> files == old(files) && cache == old(cache) && nextId == old(nextId)
      {
        var child := children[i];
        var copied := CopyFile(child.path, JoinPath(destPath, child.name), now, fuel);
        if copied.Err? {
          return Err(copied.error);
        }
        i := i + 1;
      }
      return Ok(());
    }

    /** getStats: counts of file and directory records and the sum of their sizes. */
    method GetStats() returns (totalFiles: nat, totalDirectories: nat, totalSize: int)
      requires Valid()
      ensures totalFiles == |set k | k in files && files[k].IsFile()|
      ensures totalDirectories == |set k | k in files && files[k].IsDirectory()|
      ensures totalSize == SizeBelow(files, nextId)
    {
      totalFiles, totalDirectories, totalSize := 0, 0, 0;
      var i := 0;
      while i < nextId
        invariant 0 <= i <= nextId
        invariant totalFiles == CountBelow(files, i, true)
        invariant totalDirectories == CountBelow(files, i, false)
        invariant totalSize == SizeBelow(files, i)
      {
        if i in files {
          if files[i].IsFile() {
            totalFiles := totalFiles + 1;
          } else {
            totalDirectories := totalDirectories + 1;
          }
          totalSize := totalSize + files[i].size;
        }
        i := i + 1;
      }
      CountBelowIsCardinality(files, i, true);
      CountBelowIsCardinality(files, i, false);
      assert (set k | k in files && k < i && files[k].IsFile() == true) == (set k | k in files && files[k].IsFile());
      assert (set k | k in files && k < i && files[k].IsFile() == false)
          == (set k | k in files && files[k].IsDirectory());
    }

    method SetCurrentUser(userId: string)
      modifies this`currentUserId
      ensures currentUserId == userId
    {
      currentUserId := userId;
    }

    method ClearCache()
      requires Valid()
      modifies this`cache
      ensures Valid() && cache == map[]
    {
      cache := map[];
    }
  }
}
