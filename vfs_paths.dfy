// Path strings of the virtual file system (src/kernel/filesystem.ts: joinPath, splitPath,
// and the destination split of moveFile/copyFile).
module VfsPaths {
  import opened Text

  predicate NoDoubleSlash(s: string) {
    forall i :: 0 <= i < |s| - 1 ==> !(s[i] == '/' && s[i + 1] == '/')
  }

  predicate SlashFree(s: string) {
    forall i :: 0 <= i < |s| ==> s[i] != '/'
  }

  /** The form every `joinPath` result has: non-empty, no `//`, no trailing `/` except the root. */
  predicate Normalized(p: string) {
    p != "" && NoDoubleSlash(p) && (p == "/" || p[|p| - 1] != '/')
  }

  /** A normalized path that starts at the root. */
  predicate Absolute(p: string) {
    Normalized(p) && p[0] == '/'
  }

  /** `s.replace(/\/+/g, '/')`. */
  function CollapseSlashes(s: string): string
    decreases |s|
  {
    if |s| <= 1 then s
    else if s[0] == '/' && s[1] == '/' then CollapseSlashes(s[1..])
    else [s[0]] + CollapseSlashes(s[1..])
  }

  /** `s.replace(/\/$/, '')`. */
  function DropTrailingSlash(s: string): string {
    if |s| > 0 && s[|s| - 1] == '/' then s[..|s| - 1] else s
  }

  /** `joinPath(a, b)`: join with `/`, collapse slash runs, drop one trailing `/`, map `''` to `/`. */
  function JoinPath(a: string, b: string): string {
    var t := DropTrailingSlash(CollapseSlashes(a + "/" + b));
    if t == "" then "/" else t
  }

  function NonEmptyParts(parts: seq<string>): seq<string> {
    if |parts| == 0 then []
    else (if parts[0] != "" then [parts[0]] else []) + NonEmptyParts(parts[1..])
  }

  /** `splitPath(p)`: `p.split('/')` without the empty pieces. */
  function SplitPath(p: string): seq<string> {
    NonEmptyParts(SplitOn(p, "/"))
  }

  /** `parts.slice(0, -1).join('/')`: every part but the last, joined with `/`. */
  function JoinInit(parts: seq<string>): string {
    if |parts| <= 1 then ""
    else if |parts| == 2 then parts[0]
    else parts[0] + "/" + JoinInit(parts[1..])
  }

  /** `destParts.slice(0, -1).join('/') || '/'` in moveFile and copyFile. */
  function DestParentPath(dest: string): string {
    var j := JoinInit(SplitPath(dest));
    if j == "" then "/" else j
  }

  /** `destParts[destParts.length - 1]`; with no parts JavaScript yields `undefined`, here `""`. */
  function DestName(dest: string): string {
    var parts := SplitPath(dest);
    if |parts| == 0 then "" else parts[|parts| - 1]
  }

  // ---------------------------------------------------------------------------
  // Collapsing slash runs
  // ---------------------------------------------------------------------------

  lemma {:induction false} CollapseShape(s: string)
    ensures NoDoubleSlash(CollapseSlashes(s))
    ensures |CollapseSlashes(s)| <= |s|
    ensures s != "" ==> CollapseSlashes(s) != "" && CollapseSlashes(s)[0] == s[0]
    ensures s != "" ==> CollapseSlashes(s)[|CollapseSlashes(s)| - 1] == s[|s| - 1]
    decreases |s|
  {
    if |s| > 1 {
      CollapseShape(s[1..]);
    }
  }

  lemma {:induction false} CollapseIdentity(s: string)
    requires NoDoubleSlash(s)
    ensures CollapseSlashes(s) == s
    decreases |s|
  {
    if |s| > 1 {
      CollapseIdentity(s[1..]);
      assert s == [s[0]] + s[1..];
    }
  }

  /** Every `joinPath` result is a normalized path. */
  lemma JoinPathNormalized(a: string, b: string)
    ensures Normalized(JoinPath(a, b))
  {
    var c := CollapseSlashes(a + "/" + b);
    CollapseShape(a + "/" + b);
    var t := DropTrailingSlash(c);
    if t != "" && t != c {
      assert t[|t| - 1] == c[|c| - 2];
      assert c[|c| - 1] == '/';
    }
  }

  /**
   * Joining a simple name under an absolute normalized path appends `/name`
   * (without doubling the root's slash).
   */
  lemma JoinPathUnder(parent: string, name: string)
    requires Absolute(parent) && name != "" && SlashFree(name)
    ensures JoinPath(parent, name) == (if parent == "/" then "" else parent) + "/" + name
  {
    var q := (if parent == "/" then "" else parent) + "/" + name;
    assert NoDoubleSlash(q);
    if parent == "/" {
      var s := parent + "/" + name;
      assert s[1..] == q;
      assert CollapseSlashes(s) == CollapseSlashes(q);
    } else {
      assert parent + "/" + name == q;
    }
    CollapseIdentity(q);
    assert q[|q| - 1] == name[|name| - 1];
  }

  /** The root directory record created by initialize gets the path `/root`, not `/`. */
  lemma RootRecordPath()
    ensures JoinPath("/", "root") == "/root"
  {
    JoinPathUnder("/", "root");
  }

  // ---------------------------------------------------------------------------
  // Splitting
  // ---------------------------------------------------------------------------

  lemma {:induction false} SlashFreeNotContains(n: string)
    requires SlashFree(n)
    ensures !Contains(n, "/")
    decreases |n|
  {
    if |n| > 0 {
      assert n[..1][0] == n[0];
      assert SlashFree(n[1..]);
      SlashFreeNotContains(n[1..]);
    }
  }

  lemma {:induction false} SplitOnSlashAppend(s: string, n: string)
    requires SlashFree(n)
    ensures SplitOn(s + "/" + n, "/") == SplitOn(s, "/") + [n]
    decreases |s|
  {
    var t := s + "/" + n;
    if |s| == 0 {
      assert t[..1] == "/" && t[1..] == n;
      SlashFreeNotContains(n);
      SplitOnAbsent(n, "/");
    } else {
      assert t[1..] == s[1..] + "/" + n;
      SplitOnSlashAppend(s[1..], n);
      if s[0] == '/' {
        assert t[..1] == "/" && s[..1] == "/";
      } else {
        assert t[..1] != "/";
        if |s| >= 1 {
          assert s[..1] != "/";
        }
      }
    }
  }

  lemma NonEmptyPartsAppend(a: seq<string>, b: seq<string>)
    ensures NonEmptyParts(a + b) == NonEmptyParts(a) + NonEmptyParts(b)
  {
    if |a| > 0 {
      assert (a + b)[1..] == a[1..] + b;
      NonEmptyPartsAppend(a[1..], b);
    } else {
      assert a + b == b;
    }
  }

  /** Every piece of `p.split('/')` is free of `/`. */
  lemma {:induction false} SplitOnSlashPieces(s: string)
    ensures forall k :: 0 <= k < |SplitOn(s, "/")| ==> SlashFree(SplitOn(s, "/")[k])
    decreases |s|
  {
    if |s| >= 1 {
      SplitOnSlashPieces(s[1..]);
      if s[..1] == "/" {
        assert SplitOn(s, "/") == [""] + SplitOn(s[1..], "/");
      } else {
        assert s[0] != '/';
      }
    }
  }

  lemma {:induction false} NonEmptyPartsShape(parts: seq<string>)
    requires forall k :: 0 <= k < |parts| ==> SlashFree(parts[k])
    ensures forall k :: 0 <= k < |NonEmptyParts(parts)| ==>
      NonEmptyParts(parts)[k] != "" && SlashFree(NonEmptyParts(parts)[k])
  {
    if |parts| > 0 {
      NonEmptyPartsShape(parts[1..]);
    }
  }

  /** `splitPath` yields non-empty, slash-free segments. */
  lemma SplitPathSegments(p: string)
    ensures forall k :: 0 <= k < |SplitPath(p)| ==> SplitPath(p)[k] != "" && SlashFree(SplitPath(p)[k])
  {
    SplitOnSlashPieces(p);
    NonEmptyPartsShape(SplitOn(p, "/"));
  }

  /** Splitting a joined path gives the parent's segments followed by the name. */
  lemma SplitJoinPath(parent: string, name: string)
    requires Absolute(parent) && name != "" && SlashFree(name)
    ensures SplitPath(JoinPath(parent, name)) == SplitPath(parent) + [name]
  {
    JoinPathUnder(parent, name);
    var base := if parent == "/" then "" else parent;
    SplitOnSlashAppend(base, name);
    NonEmptyPartsAppend(SplitOn(base, "/"), [name]);
    if parent == "/" {
      assert SplitOn("/", "/") == [""] + SplitOn("", "/");
      assert SplitPath("/") == [];
      assert SplitOn("", "/") == [""];
    }
    assert NonEmptyParts([name]) == [name];
  }

  // ---------------------------------------------------------------------------
  // The destination parent of moveFile / copyFile
  // ---------------------------------------------------------------------------

  /** Joining all parts but the last is the join of the slice without the last part. */
  lemma {:induction false} JoinInitIsJoin(parts: seq<string>)
    requires |parts| >= 1
    ensures JoinInit(parts) == Join(parts[..|parts| - 1], "/")
  {
    if |parts| > 2 {
      JoinInitIsJoin(parts[1..]);
      assert parts[1..][..|parts| - 2] == parts[..|parts| - 1][1..];
    }
  }

  lemma {:induction false} JoinSegmentsStart(parts: seq<string>)
    requires |parts| >= 1
    requires forall k :: 0 <= k < |parts| ==> parts[k] != "" && SlashFree(parts[k])
    ensures Join(parts, "/") != "" && Join(parts, "/")[0] == parts[0][0]
  {
  }

  /**
   * A destination with at most one segment has parent `/`; one with two or more
   * has a parent path without the leading `/`, so it never names an absolute path.
   */
  lemma DestParentShape(dest: string)
    ensures |SplitPath(dest)| <= 1 ==> DestParentPath(dest) == "/"
    ensures |SplitPath(dest)| >= 2 ==> DestParentPath(dest) != "" && DestParentPath(dest)[0] != '/'
  {
    var parts := SplitPath(dest);
    SplitPathSegments(dest);
    if |parts| >= 2 {
      var init := parts[..|parts| - 1];
      JoinInitIsJoin(parts);
      JoinSegmentsStart(init);
      assert init[0] == parts[0];
    }
  }

  /** The destination name is the last segment and, when there is one, non-empty and slash-free. */
  lemma DestNameShape(dest: string)
    ensures |SplitPath(dest)| >= 1 ==> DestName(dest) != "" && SlashFree(DestName(dest))
    ensures |SplitPath(dest)| == 0 ==> DestName(dest) == ""
  {
    SplitPathSegments(dest);
  }
}
