/**
 Loading a scan target: the bounded copy of a directory tree, and the bounded extraction of the
 archive members whose names stay inside the target directory.
 */
module TargetLoader {

  const MAX_FILES: nat := 50000

  predicate SkipDir(name: string) {
    name in {
      ".git", ".hg", ".svn", "node_modules", ".venv", "venv", "__pycache__", ".pytest_cache", ".mypy_cache",
      "dist", "build", ".next", ".turbo"
    }
  }

  type Path = seq<string>

  /** A directory entry; isDir and isFile follow symbolic links. */
  datatype Entry = Entry(rel: Path, isDir: bool, isSymlink: bool, isFile: bool, size: nat)

  // ----- copying a directory -----

  predicate Skipped(rel: Path) {
    exists k :: 0 <= k < |rel| && SkipDir(rel[k])
  }

  predicate Eligible(e: Entry) {
    !Skipped(e.rel) && !e.isDir && !e.isSymlink && e.isFile
  }

  function EligibleOf(entries: seq<Entry>): seq<Entry> {
    if entries == [] then []
    else EligibleOf(entries[..|entries| - 1]) + if Eligible(entries[|entries| - 1]) then [entries[|entries| - 1]] else []
  }

  function TotalSize(files: seq<Entry>): nat {
    if files == [] then 0 else TotalSize(files[..|files| - 1]) + files[|files| - 1].size
  }

  predicate WithinLimits(files: seq<Entry>, limitBytes: nat) {
    |files| <= MAX_FILES && TotalSize(files) <= limitBytes
  }

  lemma {:induction false} PrefixWithinLimits(files: seq<Entry>, limitBytes: nat, k: nat)
    requires WithinLimits(files, limitBytes) && k <= |files|
    ensures WithinLimits(files[..k], limitBytes)
  {
    if k < |files| {
      PrefixWithinLimits(files[..|files| - 1], limitBytes, k);
      assert files[..|files| - 1][..k] == files[..k];
    } else {
      assert files[..k] == files;
    }
  }

  /** The eligible files are the regular, unlinked ones with no part of a skipped name. */
  lemma {:induction false} EligibleExactly(entries: seq<Entry>, e: Entry)
    ensures e in EligibleOf(entries) <==>
            e in entries && !e.isDir && !e.isSymlink && e.isFile
            && forall k :: 0 <= k < |e.rel| ==>
                 e.rel[k] !in {".git", ".hg", ".svn", "node_modules", ".venv", "venv", "__pycache__", ".pytest_cache",
                               ".mypy_cache", "dist", "build", ".next", ".turbo"}
  {
    EligibleAreEntries(entries);
  }

  lemma {:induction false} EligibleAreEntries(entries: seq<Entry>)
    ensures forall e :: e in EligibleOf(entries) <==> e in entries && Eligible(e)
  {
    if entries != [] {
      EligibleAreEntries(entries[..|entries| - 1]);
      assert entries == entries[..|entries| - 1] + [entries[|entries| - 1]];
    }
  }

  /** They stay in order, each as often as it occurs, and their sizes add up. */
  lemma {:induction false} EligibleInOrder(a: seq<Entry>, b: seq<Entry>)
    ensures EligibleOf(a + b) == EligibleOf(a) + EligibleOf(b)
    ensures TotalSize(a + b) == TotalSize(a) + TotalSize(b)
  {
    if b == [] {
      assert a + b == a;
    } else {
      assert (a + b)[..|a + b| - 1] == a + b[..|b| - 1];
      EligibleInOrder(a, b[..|b| - 1]);
    }
  }

  lemma {:induction false} EligibleAlone(e: Entry)
    ensures EligibleOf([e]) == if e in EligibleOf([e]) then [e] else []
    ensures TotalSize([e]) == e.size
  {
    assert [e][..0] == [];
  }

  lemma {:induction false} EligibleOfPrefix(entries: seq<Entry>, n: nat)
    requires n <= |entries|
    ensures EligibleOf(entries[..n]) <= EligibleOf(entries)
  {
    if n < |entries| {
      EligibleOfPrefix(entries[..|entries| - 1], n);
      assert entries[..|entries| - 1][..n] == entries[..n];
    } else {
      assert entries[..n] == entries;
    }
  }

  lemma {:induction false} EligibleExtends(entries: seq<Entry>, n: nat)
    requires n < |entries|
    ensures EligibleOf(entries[..n + 1]) == EligibleOf(entries[..n]) + if Eligible(entries[n]) then [entries[n]] else []
  {
    assert entries[..n + 1][..n] == entries[..n];
  }

  lemma {:induction false} OverLimit(all: seq<Entry>, through: seq<Entry>, limitBytes: nat)
    requires through <= all && !WithinLimits(through, limitBytes)
    ensures !WithinLimits(all, limitBytes)
  {
    assert all[..|through|] == through;
    if WithinLimits(all, limitBytes) {
      PrefixWithinLimits(all, limitBytes, |through|);
    }
  }

  /** files are the first eligible entries, as many as fit: none is left out unless the next one
      would break a limit. */
  ghost predicate CopiedAsFits(entries: seq<Entry>, limitBytes: nat, files: seq<Entry>, raised: bool) {
    var all := EligibleOf(entries);
    && files <= all
    && (forall k :: 0 <= k <= |files| ==> WithinLimits(files[..k], limitBytes))
    && (raised <==> !WithinLimits(all, limitBytes))
    && (!raised ==> files == all)
    && (raised ==> |files| < |all| && !WithinLimits(all[..|files| + 1], limitBytes))
  }

  lemma {:induction false} OneMore(files: seq<Entry>, e: Entry, limitBytes: nat)
    ensures TotalSize(files + [e]) == TotalSize(files) + e.size
    ensures WithinLimits(files + [e], limitBytes) <==> |files| + 1 <= MAX_FILES && TotalSize(files) + e.size <= limitBytes
  {
    assert (files + [e])[..|files|] == files;
  }

  lemma {:induction false} PrefixesWithinLimits(files: seq<Entry>, limitBytes: nat)
    requires WithinLimits(files, limitBytes)
    ensures forall k :: 0 <= k <= |files| ==> WithinLimits(files[..k], limitBytes)
  {
    forall k | 0 <= k <= |files| ensures WithinLimits(files[..k], limitBytes) {
      PrefixWithinLimits(files, limitBytes, k);
    }
  }

  lemma {:induction false} StopsAtLimit(entries: seq<Entry>, n: nat, files: seq<Entry>, limitBytes: nat)
    requires n < |entries| && files == EligibleOf(entries[..n]) && Eligible(entries[n])
    requires WithinLimits(files, limitBytes) && !WithinLimits(files + [entries[n]], limitBytes)
    ensures CopiedAsFits(entries, limitBytes, files, true)
  {
    var all, through := EligibleOf(entries), files + [entries[n]];
    EligibleExtends(entries, n);
    EligibleOfPrefix(entries, n + 1);
    assert all[..|files| + 1] == through;
    OverLimit(all, through, limitBytes);
    PrefixesWithinLimits(files, limitBytes);
  }

  // ----- directories -----

  ghost predicate NoneSkipped(dirs: set<Path>) {
    forall d :: d in dirs ==> !Skipped(d)
  }

  /** Every file's directory has been made. */
  ghost predicate Placed(files: seq<Entry>, dirs: set<Path>) {
    forall k :: 0 <= k < |files| && files[k].rel != [] ==> files[k].rel[..|files[k].rel| - 1] in dirs
  }

  /** With every directory the one above it has been made. */
  ghost predicate Rooted(dirs: set<Path>) {
    forall d :: d in dirs && d != [] ==> d[..|d| - 1] in dirs
  }

  /** mkdir with parents: the path and all above it. */
  function Ancestors(rel: Path): (ds: set<Path>)
    ensures rel in ds
    ensures !Skipped(rel) ==> NoneSkipped(ds)
  {
    assert rel[..|rel|] == rel;
    set k | 0 <= k <= |rel| :: rel[..k]
  }

  lemma {:induction false} RootedWith(dirs: set<Path>, rel: Path)
    requires Rooted(dirs)
    ensures Rooted(dirs + Ancestors(rel))
  {
    forall d | d in Ancestors(rel) && d != [] ensures d[..|d| - 1] in Ancestors(rel) {
      var k :| 0 <= k <= |rel| && d == rel[..k];
      assert d[..|d| - 1] == rel[..k - 1];
    }
  }

  lemma {:induction false} ParentNotSkipped(rel: Path)
    requires rel != [] && !Skipped(rel)
    ensures !Skipped(rel[..|rel| - 1])
  {
  }

  class WorkDir {
    var files: seq<Entry>
    var dirs: set<Path>

    constructor ()
      ensures files == [] && dirs == {[]}
    {
      files, dirs := [], {[]};
    }

    method CopyFile(e: Entry)
      requires !Skipped(e.rel) && NoneSkipped(dirs) && Placed(files, dirs) && Rooted(dirs)
      modifies this
      ensures files == old(files) + [e]
      ensures NoneSkipped(dirs) && Placed(files, dirs) && Rooted(dirs)
    {
      if e.rel != [] {
        ParentNotSkipped(e.rel);
        MakeDirs(e.rel[..|e.rel| - 1]);
      }
      files := files + [e];
    }

    method MakeDirs(rel: Path)
      requires !Skipped(rel) && NoneSkipped(dirs) && Placed(files, dirs) && Rooted(dirs)
      modifies this`dirs
      ensures dirs == old(dirs) + Ancestors(rel)
      ensures NoneSkipped(dirs) && Placed(files, dirs) && Rooted(dirs)
    {
      RootedWith(dirs, rel);
      dirs := dirs + Ancestors(rel);
    }

    /** Copies eligible files until one would break a limit: at every moment, and when it raises,
        what is copied is a prefix of the eligible files within the limits. */
    method CopyDirectory(entries: seq<Entry>, limitBytes: nat) returns (raised: bool)
      requires files == [] && dirs == {[]}
      modifies this
      ensures CopiedAsFits(entries, limitBytes, files, raised)
      ensures raised <==> |EligibleOf(entries)| > 50_000 || TotalSize(EligibleOf(entries)) > limitBytes
      ensures |files| <= 50_000 && TotalSize(files) <= limitBytes
      ensures NoneSkipped(dirs) && Placed(files, dirs) && Rooted(dirs)
    {
      var count, total := 0, 0;
      for n := 0 to |entries|
        invariant files == EligibleOf(entries[..n])
        invariant count == |files| && total == TotalSize(files) && WithinLimits(files, limitBytes)
        invariant NoneSkipped(dirs) && Placed(files, dirs) && Rooted(dirs)
      {
        var e := entries[n];
        EligibleExtends(entries, n);
        if Skipped(e.rel) {
          continue;
        }
        if e.isDir {
          MakeDirs(e.rel);
          continue;
        }
        if e.isSymlink || !e.isFile {
          continue;
        }
        total := total + e.size;
        count := count + 1;
        OneMore(files, e, limitBytes);
        if count > MAX_FILES || total > limitBytes {
          StopsAtLimit(entries, n, files, limitBytes);
          return true;
        }
        CopyFile(e);
      }
      assert entries[..|entries|] == entries;
      PrefixesWithinLimits(files, limitBytes);
      return false;
    }
  }

  // ----- archive member names -----

  /** The components of a name, split at slashes. */
  function Split(name: string): (cs: seq<string>)
    ensures cs != []
  {
    if name == "" then [""]
    else if name[0] == '/' then [""] + Split(name[1..])
    else [[name[0]] + Split(name[1..])[0]] + Split(name[1..])[1..]
  }

  function Join(cs: seq<string>): string
    requires cs != []
  {
    if |cs| == 1 then cs[0] else cs[0] + "/" + Join(cs[1..])
  }

  lemma {:induction false} SplitJoins(name: string)
    ensures Join(Split(name)) == name
    ensures forall k :: 0 <= k < |Split(name)| ==> '/' !in Split(name)[k]
  {
    if name != "" {
      SplitJoins(name[1..]);
      assert name == [name[0]] + name[1..];
      var rest := Split(name[1..]);
      if name[0] == '/' {
        assert ([""] + rest)[1..] == rest;
      } else {
        assert ([[name[0]] + rest[0]] + rest[1..])[1..] == rest[1..];
      }
    }
  }

  predicate Trivial(c: string) { c == "" || c == "." }

  /** The components that count. */
  function Keep(cs: seq<string>): Path {
    if cs == [] then [] else Keep(cs[..|cs| - 1]) + if Trivial(cs[|cs| - 1]) then [] else [cs[|cs| - 1]]
  }

  /** Path(name).parts of a name that does not start with a slash. */
  function Parts(name: string): Path {
    Keep(Split(name))
  }

  /** The filter of both extraction loops. */
  predicate Accepted(name: string) {
    !("/" <= name) && !(".." <= name) && ".." !in Parts(name)
  }

  /** A name is accepted if and only if it begins with neither a slash nor two dots and no component of it
      is two dots. */
  lemma {:induction false} AcceptedIff(name: string)
    ensures Accepted(name) <==>
            !(|name| >= 1 && name[0] == '/') && !(|name| >= 2 && name[..2] == "..") && ".." !in Split(name)
  {
    KeepsAllBut(Split(name), "..");
  }

  lemma {:induction false} KeepsAllBut(cs: seq<string>, c: string)
    ensures c in Keep(cs) <==> c in cs && c != "" && c != "."
  {
    if cs != [] {
      KeepsAllBut(cs[..|cs| - 1], c);
      assert cs == cs[..|cs| - 1] + [cs[|cs| - 1]];
    }
  }

  /** Following one component from a directory, given as its path from the file system root. */
  function Follow(dir: Path, c: string): Path {
    if Trivial(c) then dir
    else if c == ".." then (if dir == [] then [] else dir[..|dir| - 1])
    else dir + [c]
  }

  /** Following the components one by one. */
  function Walk(dir: Path, cs: seq<string>): Path {
    if cs == [] then dir else Follow(Walk(dir, cs[..|cs| - 1]), cs[|cs| - 1])
  }

  /** Where a name leads after its first n components. */
  function Resolve(root: Path, name: string, n: nat): Path
    requires n <= |Split(name)|
  {
    Walk(if "/" <= name then [] else root, Split(name)[..n])
  }

  lemma {:induction false} WalkAppends(dir: Path, cs: seq<string>, n: nat)
    requires n <= |cs| && ".." !in Keep(cs)
    ensures Walk(dir, cs[..n]) == dir + Keep(cs[..n])
    ensures Keep(cs[..n]) <= Keep(cs)
    decreases |cs|, n
  {
    if n < |cs| {
      var front := cs[..|cs| - 1];
      assert front[..n] == cs[..n];
      WalkAppends(dir, front, n);
    } else if n > 0 {
      assert cs[..n] == cs;
      WalkAppends(dir, cs[..n - 1], n - 1);
      assert cs[..n - 1][..n - 1] == cs[..n - 1];
      assert !Trivial(cs[n - 1]) ==> Keep(cs)[|Keep(cs)| - 1] == cs[n - 1];
    }
  }

  /** An accepted name never leads outside the root, whatever the root and after however many of
      its components, and ends at its parts below it. */
  lemma {:induction false} AcceptedStaysInside(root: Path, name: string, n: nat)
    requires Accepted(name) && n <= |Split(name)|
    ensures root <= Resolve(root, name, n)
    ensures Resolve(root, name, |Split(name)|) == root + Parts(name)
  {
    WalkAppends(root, Split(name), n);
    WalkAppends(root, Split(name), |Split(name)|);
    assert Split(name)[..|Split(name)|] == Split(name);
  }

  /** A rejected name may leave the root, upwards or at a slash. */
  lemma {:induction false} RejectedMayLeave()
    ensures !Accepted("..") && Resolve(["a"], "..", 1) == []
    ensures !Accepted("/b") && Resolve(["a"], "/b", 2) == ["b"]
  {
    SplitOf("..");
    WalkOne(["a"], "..");
    assert Split("..")[..1] == [".."];
    SlashStartsOver(["a"]);
  }

  lemma {:induction false} SlashStartsOver(root: Path)
    ensures |Split("/b")| == 2 && Resolve(root, "/b", 2) == ["b"]
  {
    SplitOf("b");
    assert "/b"[1..] == "b";
    assert Split("/b") == ["", "b"] && Split("/b")[..2] == ["", "b"];
    assert ["", "b"][..1] == [""] && [""][..0] == [];
    assert Walk([], [""]) == [];
  }

  /** A file name that merely begins with two dots would not, but is rejected too. */
  lemma {:induction false} SafeNameRejected(root: Path)
    ensures !Accepted("..b") && |Split("..b")| == 1 && Resolve(root, "..b", 1) == root + ["..b"]
  {
    SplitOf("..b");
    WalkOne(root, "..b");
    assert Split("..b")[..1] == ["..b"];
  }

  /** A name without a slash is one component. */
  lemma {:induction false} SplitOf(name: string)
    requires '/' !in name
    ensures Split(name) == [name]
  {
    if name != "" {
      SplitOf(name[1..]);
      assert name == [name[0]] + name[1..];
    }
  }

  lemma {:induction false} WalkOne(dir: Path, c: string)
    ensures Walk(dir, [c]) == Follow(dir, c)
  {
    assert [c][..0] == [];
  }

  // ----- extracting -----

  /** The accepted names stay in order, each as often as it occurs. */
  lemma {:induction false} AcceptedInOrder(a: seq<string>, b: seq<string>)
    ensures AcceptedOf(a + b) == AcceptedOf(a) + AcceptedOf(b)
  {
    if b == [] {
      assert a + b == a;
    } else {
      assert (a + b)[..|a + b| - 1] == a + b[..|b| - 1];
      AcceptedInOrder(a, b[..|b| - 1]);
    }
  }

  lemma {:induction false} AcceptedAlone(name: string)
    ensures AcceptedOf([name]) == if Accepted(name) then [name] else []
  {
    assert [name][..0] == [];
  }

  function AcceptedOf(names: seq<string>): seq<string> {
    if names == [] then []
    else AcceptedOf(names[..|names| - 1]) + if Accepted(names[|names| - 1]) then [names[|names| - 1]] else []
  }

  lemma {:induction false} AcceptedExtends(names: seq<string>, n: nat)
    requires n < |names|
    ensures AcceptedOf(names[..n + 1]) == AcceptedOf(names[..n]) + if Accepted(names[n]) then [names[n]] else []
  {
    assert names[..n + 1][..n] == names[..n];
  }

  lemma {:induction false} AcceptedOfPrefix(names: seq<string>, n: nat)
    requires n <= |names|
    ensures AcceptedOf(names[..n]) <= AcceptedOf(names)
  {
    if n < |names| {
      AcceptedOfPrefix(names[..|names| - 1], n);
      assert names[..|names| - 1][..n] == names[..n];
    } else {
      assert names[..n] == names;
    }
  }

  /** Extracts the accepted members in order, the first MAX_FILES of them; raises exactly if
      there are more. */
  method SafeExtract(names: seq<string>) returns (extracted: seq<string>, raised: bool)
    ensures raised <==> |AcceptedOf(names)| > 50_000
    ensures extracted == if raised then AcceptedOf(names)[..50_000] else AcceptedOf(names)
  {
    extracted, raised := [], false;
    var count := 0;
    for n := 0 to |names|
      invariant extracted == AcceptedOf(names[..n])
      invariant count == |extracted| <= MAX_FILES
    {
      AcceptedExtends(names, n);
      AcceptedOfPrefix(names, n + 1);
      if !Accepted(names[n]) {
        continue;
      }
      count := count + 1;
      if count > MAX_FILES {
        return extracted, true;
      }
      extracted := extracted + [names[n]];
    }
    assert names[..|names|] == names;
  }
}
