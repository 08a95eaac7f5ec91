/**
 * The worker's disk as the pipeline sees it through `fs`: the existing files, each path
 * mapped to its contents, and the set of existing directories. Paths are the strings
 * `path.join` builds, with `/` as separator.
 */
module Environment {
  import opened Wrappers
  import opened JsText

  /**
   * File contents: a file written from a string is kept as that string (its UTF-8
   * encoding is not modelled); anything an external program or a buffer wrote is bytes.
   */
  datatype FileData = Text(text: string) | Binary(bytes: seq<bv8>)

  /** `path.join(dir, name)` for a directory path without a trailing `/`. */
  function PathJoin(dir: string, name: string): string {
    dir + "/" + name
  }

  /** `p` names an entry directly inside directory `dir`. */
  predicate ChildOf(p: string, dir: string) {
    StartsWith(p, dir + "/") && '/' !in p[|dir| + 1..]
  }

  /** The name under which `readdirSync(dir)` lists `p`. */
  function ChildName(p: string, dir: string): (name: string)
    requires ChildOf(p, dir)
    ensures '/' !in name && PathJoin(dir, name) == p
  {
    SliceSplit(p, |dir| + 1);
    p[|dir| + 1..]
  }

  /** Joining a plain name onto `dir` gives a child of `dir` listed under that name. */
  lemma JoinIsChild(dir: string, name: string)
    requires '/' !in name
    ensures ChildOf(PathJoin(dir, name), dir) && ChildName(PathJoin(dir, name), dir) == name
  {
    var p := PathJoin(dir, name);
    assert p[..|dir| + 1] == dir + "/";
    assert p[|dir| + 1..] == name;
  }

  /** The position of the last `/` in `p`. */
  function LastSlash(p: string): (i: nat)
    requires '/' in p
    ensures i < |p| && p[i] == '/' && '/' !in p[i + 1..]
  {
    if p[|p| - 1] == '/' then |p| - 1
    else
      var i := LastSlash(p[..|p| - 1]);
      assert p[i + 1..] == p[..|p| - 1][i + 1..] + [p[|p| - 1]];
      i
  }

  /** `path.dirname(p)` for a path holding a `/`. */
  function Dirname(p: string): string
    requires '/' in p
  {
    p[..LastSlash(p)]
  }

  /** `path.basename(p)` for a path holding a `/`. */
  function Basename(p: string): string
    requires '/' in p
  {
    p[LastSlash(p) + 1..]
  }

  /** `dirname` and `basename` take a joined path back apart when the name is plain. */
  lemma SplitJoined(dir: string, name: string)
    requires '/' !in name
    ensures '/' in PathJoin(dir, name)
    ensures Dirname(PathJoin(dir, name)) == dir && Basename(PathJoin(dir, name)) == name
  {
    var p := PathJoin(dir, name);
    assert p[|dir|] == '/';
    var i := LastSlash(p);
    assert forall j :: i < j < |p| ==> p[j] == p[i + 1..][j - i - 1];
    assert forall j :: |dir| < j < |p| ==> p[j] == name[j - |dir| - 1];
    assert i == |dir|;
    assert p[..|dir|] == dir;
    assert p[|dir| + 1..] == name;
  }

  /** `process.env.X || fallback`: an unset or empty variable takes the fallback. */
  function EnvOr(v: Option<string>, fallback: string): (s: string)
    ensures v.Some? && v.value != "" ==> s == v.value
    ensures v.None? || v.value == "" ==> s == fallback
  {
    if v.Some? && v.value != "" then v.value else fallback
  }

  /** The disk. Every operation is one `fs` call on it. */
  class FileSystem {
    var files: map<string, FileData>
    var dirs: set<string>

    constructor (files: map<string, FileData>, dirs: set<string>)
      ensures this.files == files && this.dirs == dirs
    {
      this.files := files;
      this.dirs := dirs;
    }

    /** `existsSync(p)`: a file or a directory. */
    function Exists(p: string): (b: bool)
      reads this
      ensures b <==> p in files || p in dirs
    {
      p in files || p in dirs
    }

    /** The names `readdirSync(dir)` returns: files and sub-directories directly inside. */
    function Entries(dir: string): set<string>
      reads this
    {
      (set p | p in files && ChildOf(p, dir) :: ChildName(p, dir)) +
      (set d | d in dirs && ChildOf(d, dir) :: ChildName(d, dir))
    }

    /** `mkdirSync(d, { recursive: true })` for a directory whose parent exists. */
    method MakeDir(d: string)
      modifies this
      ensures dirs == old(dirs) + {d} && files == old(files)
    {
      dirs := dirs + {d};
    }

    /** `writeFileSync(p, data)`: creates or replaces the file. */
    method WriteFile(p: string, data: FileData)
      modifies this
      ensures files == old(files)[p := data] && dirs == old(dirs)
    {
      files := files[p := data];
    }

    /** `copyFileSync(src, dst)`: throws when `src` is not a file. */
    method CopyFile(src: string, dst: string) returns (o: Outcome)
      modifies this
      ensures o.Pass? <==> src in old(files)
      ensures files == if src in old(files) then old(files)[dst := old(files)[src]] else old(files)
      ensures dirs == old(dirs)
    {
      if src in files {
        files := files[dst := files[src]];
        o := Pass;
      } else {
        o := Fail("ENOENT: no such file or directory, copyfile '" + src + "' -> '" + dst + "'");
      }
    }

    /** `unlinkSync(p)`: removes a file; throws for a missing path or a directory. */
    method Unlink(p: string) returns (o: Outcome)
      modifies this
      ensures o.Pass? <==> p in old(files)
      ensures files == old(files) - {p} && dirs == old(dirs)
    {
      if p in files {
        files := files - {p};
        o := Pass;
      } else {
        o := Fail("ENOENT: no such file or directory, unlink '" + p + "'");
      }
    }

    /** `readdirSync(dir)` on an existing directory: every entry once, in the order the OS gives. */
    method ReadDir(dir: string) returns (names: seq<string>)
      requires dir in dirs
      ensures forall n :: n in names <==> n in Entries(dir)
      ensures forall k :: 0 <= k < |names| ==> '/' !in names[k]
    {
      var rest := Entries(dir);
      names := [];
      while rest != {}
        invariant rest <= Entries(dir)
        invariant forall n :: n in names <==> n in Entries(dir) && n !in rest
        invariant forall k :: 0 <= k < |names| ==> names[k] in Entries(dir)
        decreases |rest|
      {
        var n :| n in rest;
        names := names + [n];
        rest := rest - {n};
      }
      forall k | 0 <= k < |names|
        ensures '/' !in names[k]
      {
        EntryIsPlain(dir, names[k]);
      }
    }

    /** No listed name holds a separator. */
    lemma EntryIsPlain(dir: string, n: string)
      requires n in Entries(dir)
      ensures '/' !in n
    {
      if n in (set p | p in files && ChildOf(p, dir) :: ChildName(p, dir)) {
        var p :| p in files && ChildOf(p, dir) && ChildName(p, dir) == n;
      } else {
        var d :| d in dirs && ChildOf(d, dir) && ChildName(d, dir) == n;
      }
    }

    /** Every file directly inside `dir` is listed. */
    lemma ChildListed(dir: string, p: string)
      requires p in files && ChildOf(p, dir)
      ensures ChildName(p, dir) in Entries(dir)
    {
    }
  }
}
