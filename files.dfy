/**
 * The slice of the local file system the maintainer touches: regular files
 * keyed by their full path, and the set of existing directories. Paths are
 * joined and split as Python's `posixpath` does. The maintainer never creates
 * a directory, so no operation here changes `dirs`.
 */
module Files {
  import opened Wrappers
  import opened Strings
  import opened LibraryXml

  type Byte = bv8

  /** What a regular file holds: downloaded bytes, or a library document written by the library manager. */
  datatype FileData = Blob(bytes: seq<Byte>) | Catalog(doc: LibraryDocument)

  /** `os.path.getsize` of a file. The rendered size of a library document is not modelled and reads as 0. */
  function SizeOf(f: FileData): nat {
    match f
    case Blob(b) => |b|
    case Catalog(_) => 0
  }

  /** What `posixpath.join(dir, name)` puts in front of a relative `name`. */
  function DirPrefix(dir: string): string {
    if dir == "" || EndsWith(dir, "/") then dir else dir + "/"
  }

  /** `posixpath.join(dir, name)`: an absolute `name` replaces `dir`. */
  function PathJoin(dir: string, name: string): string {
    if StartsWith(name, "/") then name else DirPrefix(dir) + name
  }

  /** A name `os.listdir` can return: non-empty, with no separator. */
  predicate IsEntryName(n: string) {
    n != "" && '/' !in n
  }

  lemma EntryPaths(dir: string)
    ensures forall n :: IsEntryName(n) ==>
      PathJoin(dir, n) == DirPrefix(dir) + n && (DirPrefix(dir) + n)[|DirPrefix(dir)|..] == n
  {
    forall n | IsEntryName(n)
      ensures PathJoin(dir, n) == DirPrefix(dir) + n
    {
      assert n[..1] == [n[0]];
    }
  }

  /** Whether `p` names an entry directly inside `dir`. */
  predicate IsEntryPath(dir: string, p: string) {
    StartsWith(p, DirPrefix(dir)) && IsEntryName(p[|DirPrefix(dir)|..])
  }

  function LastIndexOf(s: string, c: char): (i: nat)
    requires c in s
    ensures i < |s| && s[i] == c && c !in s[i + 1..]
  {
    if s[|s| - 1] == c then |s| - 1
    else
      assert s == s[..|s| - 1] + [s[|s| - 1]];
      var i := LastIndexOf(s[..|s| - 1], c);
      assert s[i + 1..] == s[..|s| - 1][i + 1..] + [s[|s| - 1]];
      i
  }

  /** `posixpath.dirname(p)`: the head up to the last `/`, trailing slashes dropped unless it is all slashes. */
  function DirName(p: string): string {
    if '/' !in p then "" else HeadDir(p[..LastIndexOf(p, '/') + 1])
  }

  /** The directory a head ending in `/` names: the head itself when it is all slashes, else without its trailing slashes. */
  function HeadDir(head: string): string {
    if forall k :: 0 <= k < |head| ==> head[k] == '/' then head
    else StripRight(head, c => c == '/')
  }

  /** `posixpath.basename(p)`: what follows the last `/`. */
  function BaseName(p: string): (b: string)
    ensures '/' !in b
  {
    if '/' in p then p[LastIndexOf(p, '/') + 1..] else p
  }

  lemma {:induction false} LastIndexOfAppend(p: string, t: string, c: char)
    requires c !in t
    ensures c in p + t <==> c in p
    ensures c in p ==> LastIndexOf(p + t, c) == LastIndexOf(p, c)
    decreases |t|
  {
    if t == [] {
      assert p + t == p;
    } else {
      var s := p + t;
      assert s[..|s| - 1] == p + t[..|t| - 1];
      assert s[|s| - 1] == t[|t| - 1];
      LastIndexOfAppend(p, t[..|t| - 1], c);
      assert c in s ==> c in s[..|s| - 1];
    }
  }

  /** Appending a suffix without `/` (such as `.tmp`) keeps the parent directory. */
  lemma DirNameAppend(p: string, t: string)
    requires '/' !in t
    ensures DirName(p + t) == DirName(p)
  {
    LastIndexOfAppend(p, t, '/');
    if '/' in p {
      DirNameAppendSlash(p, t, p + t);
    }
  }

  lemma DirNameAppendSlash(p: string, t: string, q: string)
    requires '/' !in t && '/' in p && q == p + t
    requires '/' in q && LastIndexOf(q, '/') == LastIndexOf(p, '/')
    ensures DirName(q) == DirName(p)
  {
    var i := LastIndexOf(p, '/');
    PrefixOfAppend(p, t, q, i + 1);
    assert DirName(q) == HeadDir(q[..i + 1]);
    assert DirName(p) == HeadDir(p[..i + 1]);
  }

  lemma PrefixOfAppend(p: string, t: string, q: string, n: nat)
    requires q == p + t && n <= |p|
    ensures q[..n] == p[..n]
  {
  }

  /** Whether `open(p, 'w')` succeeds given the existing directories: the parent exists and `p` is not a directory. */
  predicate CanWrite(dirs: set<string>, p: string) {
    DirName(p) in dirs && p !in dirs
  }

  /** The base name of an entry's path is the entry's name. */
  lemma BaseNameOfEntry(dir: string, n: string)
    requires IsEntryName(n)
    ensures BaseName(PathJoin(dir, n)) == n
  {
    EntryPaths(dir);
    var pre := DirPrefix(dir);
    LastIndexOfAppend(pre, n, '/');
    if pre != "" {
      assert pre[|pre| - 1] == '/';
      assert LastIndexOf(pre, '/') == |pre| - 1;
    } else {
      assert pre + n == n;
    }
  }

  /** An entry whose name ends in `suffix` has a path ending in `suffix`. */
  lemma EntryPathEndsWith(dir: string, n: string, suffix: string)
    requires IsEntryName(n) && EndsWith(n, suffix)
    ensures EndsWith(PathJoin(dir, n), suffix)
  {
    EntryPaths(dir);
    EndsWithAppend(DirPrefix(dir), n, suffix);
  }

  class FileSystem {
    var files: map<string, FileData>
    var dirs: set<string>

    /**
     * A path is a file or a directory, never both; and no directory is named
     * like a download (`*.zim`) or a temporary file (`*.tmp`).
     */
    ghost predicate Valid()
      reads this
    {
      && files.Keys !! dirs
      && forall d :: d in dirs ==> !EndsWith(d, ".tmp") && !EndsWith(d, ".zim")
    }

    constructor (files: map<string, FileData>, dirs: set<string>)
      ensures this.files == files && this.dirs == dirs
    {
      this.files := files;
      this.dirs := dirs;
    }

    /** `os.path.exists(p)`: a file or a directory. */
    predicate Exists(p: string)
      reads this
    {
      p in files || p in dirs
    }

    /** The names `os.listdir(dir)` returns. */
    function Entries(dir: string): (names: set<string>)
      reads this
      ensures forall n :: n in names <==> IsEntryName(n) && Exists(PathJoin(dir, n))
    {
      var pre := DirPrefix(dir);
      var names := set p | p in files.Keys + dirs && IsEntryPath(dir, p) :: p[|pre|..];
      EntryPaths(dir);
      assert forall p :: IsEntryPath(dir, p) ==> p == pre + p[|pre|..];
      names
    }

    predicate Writable(p: string)
      reads this
    {
      CanWrite(dirs, p)
    }

    /** `open(p, 'wb')`: create or truncate `p` as an empty file. */
    method Open(p: string) returns (ok: bool)
      modifies this
      ensures dirs == old(dirs)
      ensures old(Valid()) ==> Valid()
      ensures ok == old(Writable(p))
      ensures files == if ok then old(files)[p := Blob([])] else old(files)
    {
      ok := Writable(p);
      if ok {
        files := files[p := Blob([])];
      }
    }

    /** `f.write(data)` on a file opened for binary writing. */
    method Append(p: string, data: seq<Byte>)
      requires p in files && files[p].Blob?
      modifies this
      ensures dirs == old(dirs)
      ensures old(Valid()) ==> Valid()
      ensures files == old(files)[p := Blob(old(files)[p].bytes + data)]
    {
      files := files[p := Blob(files[p].bytes + data)];
    }

    /** `open(p, 'w')` followed by writing the whole library document. */
    method WriteDocument(p: string, doc: LibraryDocument) returns (ok: bool)
      modifies this
      ensures dirs == old(dirs)
      ensures old(Valid()) ==> Valid()
      ensures ok == old(Writable(p))
      ensures files == if ok then old(files)[p := Catalog(doc)] else old(files)
    {
      ok := Writable(p);
      if ok {
        files := files[p := Catalog(doc)];
      }
    }

    /** `os.rename(src, dst)`: atomically moves a file onto `dst`, replacing a file already there. */
    method Rename(src: string, dst: string) returns (ok: bool)
      modifies this
      ensures dirs == old(dirs)
      ensures old(Valid()) ==> Valid()
      ensures ok == (src in old(files) && old(Writable(dst)))
      ensures files == if ok then (old(files) - {src})[dst := old(files)[src]] else old(files)
    {
      ok := src in files && Writable(dst);
      if ok {
        files := (files - {src})[dst := files[src]];
      }
    }

    /** `os.remove(p)`: fails on a missing path or a directory. */
    method Remove(p: string) returns (ok: bool)
      modifies this
      ensures dirs == old(dirs)
      ensures old(Valid()) ==> Valid()
      ensures ok == (p in old(files))
      ensures files == old(files) - {p}
    {
      ok := p in files;
      files := files - {p};
    }

    /** `if os.path.exists(p): os.remove(p)`, for a path that is never a directory, so it cannot raise. */
    method Discard(p: string)
      requires p !in dirs
      modifies this
      ensures dirs == old(dirs)
      ensures old(Valid()) ==> Valid()
      ensures files == old(files) - {p}
    {
      if Exists(p) {
        var _ := Remove(p);
      }
    }

    /** `os.listdir(dir)`: every entry once, in no particular order; `None` when `dir` is not a directory. */
    method ListDir(dir: string) returns (r: Option<seq<string>>)
      ensures r.None? <==> dir !in dirs
      ensures r.Some? ==> forall n :: n in r.value <==> n in Entries(dir)
      ensures r.Some? ==> forall i, j :: 0 <= i < j < |r.value| ==> r.value[i] != r.value[j]
    {
      if dir !in dirs {
        return None;
      }
      var rest := Entries(dir);
      var names: seq<string> := [];
      while rest != {}
        invariant forall n :: n in Entries(dir) <==> n in names || n in rest
        invariant forall n :: n in names ==> n !in rest
        invariant forall i, j :: 0 <= i < j < |names| ==> names[i] != names[j]
        decreases rest
      {
        var n :| n in rest;
        names := names + [n];
        rest := rest - {n};
      }
      return Some(names);
    }
  }
}
