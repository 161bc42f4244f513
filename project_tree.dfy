/** The "Project structure" report of lib/core/codeMerger.ts
    (`generateProjectTree`): an insertion-ordered map from directory to the
    set of file names directly inside it, listed in code-unit order. */
module ProjectTree {
  import opened Text
  import opened Decimal
  import opened Seqs
  import opened Sorting
  import opened Types

  /** `/[/\\]/`: both separators split a relative path. */
  const PathSeps: set<char> := {'/', '\\'}

  function Parts(relativePath: string): (r: seq<string>)
    ensures |r| >= 1
    ensures forall i :: 0 <= i < |r| ==> NoSep(r[i], PathSeps)
  {
    Split(relativePath, PathSeps)
  }

  /** `parts.slice(0, k).join('/')`: the directory made of the first `k` parts. */
  function Prefix(parts: seq<string>, k: nat): string
    requires 1 <= k <= |parts|
  {
    Join(parts[..k], "/")
  }

  // ---------------------------------------------------------------------------
  // The map
  // ---------------------------------------------------------------------------

  datatype DirEntry = DirEntry(dir: string, names: set<string>)

  predicate HasDir(tree: seq<DirEntry>, d: string)
  {
    tree != [] && (tree[0].dir == d || HasDir(tree[1..], d))
  }

  predicate DistinctDirs(tree: seq<DirEntry>)
  {
    tree == [] || (!HasDir(tree[1..], tree[0].dir) && DistinctDirs(tree[1..]))
  }

  /** `tree.get(d)`, with an absent directory read as the empty set. */
  function NamesAt(tree: seq<DirEntry>, d: string): set<string>
  {
    if tree == [] then {} else if tree[0].dir == d then tree[0].names else NamesAt(tree[1..], d)
  }

  /** `if (!tree.has(d)) tree.set(d, new Set())`: a new key goes last. */
  function Touch(tree: seq<DirEntry>, d: string): seq<DirEntry>
  {
    if HasDir(tree, d) then tree else tree + [DirEntry(d, {})]
  }

  /** `tree.get(d)!.add(name)`. */
  function AddName(tree: seq<DirEntry>, d: string, name: string): seq<DirEntry>
  {
    if tree == [] then []
    else if tree[0].dir == d then [DirEntry(d, tree[0].names + {name})] + tree[1..]
    else [tree[0]] + AddName(tree[1..], d, name)
  }

  /** The inner loop for `i` below `k`: every enclosing directory gets a key,
      and the file name goes into the last one. */
  function AddDirs(tree: seq<DirEntry>, parts: seq<string>, k: nat): seq<DirEntry>
    requires |parts| >= 2 && k <= |parts| - 1
  {
    if k == 0 then tree
    else
      var t := Touch(AddDirs(tree, parts, k - 1), Prefix(parts, k));
      if k - 1 == |parts| - 2 then AddName(t, Prefix(parts, k), parts[|parts| - 1]) else t
  }

  /** The body of the `forEach` for one file. */
  function AddPath(tree: seq<DirEntry>, relativePath: string): seq<DirEntry>
  {
    var parts := Parts(relativePath);
    if |parts| == 1 then AddName(Touch(tree, "."), ".", parts[0])
    else AddDirs(tree, parts, |parts| - 1)
  }

  /** The map after the `forEach` over `files`. */
  function Tree(files: seq<FileData>): seq<DirEntry>
  {
    if files == [] then [] else AddPath(Tree(files[..|files| - 1]), files[|files| - 1].relativePath)
  }

  // ---------------------------------------------------------------------------
  // Reference definitions
  // ---------------------------------------------------------------------------

  /** The directory a file sits in: `.` for a bare name. */
  function ParentDir(relativePath: string): string
  {
    var parts := Parts(relativePath);
    if |parts| == 1 then "." else Prefix(parts, |parts| - 1)
  }

  function FileName(relativePath: string): string
  {
    var parts := Parts(relativePath);
    parts[|parts| - 1]
  }

  /** The directories the source lists for one file: `.` for a bare name, else
      every enclosing directory from the outermost in. */
  function Ancestors(relativePath: string): seq<string>
  {
    var parts := Parts(relativePath);
    if |parts| == 1 then ["."] else PrefixesUpTo(parts, |parts| - 1)
  }

  /** The joins of the first one, two, ..., `k` parts. */
  function PrefixesUpTo(parts: seq<string>, k: nat): seq<string>
    requires k <= |parts|
  {
    seq(k, j requires 0 <= j < k => Prefix(parts, j + 1))
  }

  function AncestorsOf(f: FileData): seq<string>
  {
    Ancestors(f.relativePath)
  }

  /** Every directory some file lists, with repetitions. */
  function AllDirs(files: seq<FileData>): seq<string>
  {
    FlatMap(AncestorsOf, files)
  }

  /** The distinct names of the files directly in `d`. */
  function NamesIn(files: seq<FileData>, d: string): set<string>
  {
    if files == [] then {}
    else
      var f := files[|files| - 1].relativePath;
      NamesIn(files[..|files| - 1], d) + (if ParentDir(f) == d then {FileName(f)} else {})
  }

  // ---------------------------------------------------------------------------
  // The map agrees with the reference definitions
  // ---------------------------------------------------------------------------

  lemma {:induction false} HasDirAppend(tree: seq<DirEntry>, e: DirEntry, x: string)
    ensures HasDir(tree + [e], x) <==> HasDir(tree, x) || x == e.dir
    ensures !HasDir(tree, e.dir) ==> NamesAt(tree + [e], x) == if x == e.dir then e.names else NamesAt(tree, x)
  {
    if tree != [] {
      HasDirAppend(tree[1..], e, x);
      assert (tree + [e])[1..] == tree[1..] + [e];
    }
  }

  lemma {:induction false} DistinctAppend(tree: seq<DirEntry>, e: DirEntry)
    requires DistinctDirs(tree) && !HasDir(tree, e.dir)
    ensures DistinctDirs(tree + [e])
  {
    if tree != [] {
      DistinctAppend(tree[1..], e);
      assert (tree + [e])[1..] == tree[1..] + [e];
      HasDirAppend(tree[1..], e, tree[0].dir);
    }
  }

  lemma TouchFacts(tree: seq<DirEntry>, d: string, x: string)
    requires DistinctDirs(tree)
    ensures DistinctDirs(Touch(tree, d))
    ensures HasDir(Touch(tree, d), x) <==> HasDir(tree, x) || x == d
    ensures NamesAt(Touch(tree, d), x) == NamesAt(tree, x)
  {
    if !HasDir(tree, d) {
      DistinctAppend(tree, DirEntry(d, {}));
      HasDirAppend(tree, DirEntry(d, {}), x);
      AbsentNames(tree, d);
    }
  }

  lemma {:induction false} AbsentNames(tree: seq<DirEntry>, d: string)
    requires !HasDir(tree, d)
    ensures NamesAt(tree, d) == {}
  {
    if tree != [] {
      AbsentNames(tree[1..], d);
    }
  }

  lemma {:induction false} AddNameFacts(tree: seq<DirEntry>, d: string, name: string, x: string)
    requires DistinctDirs(tree)
    ensures DistinctDirs(AddName(tree, d, name))
    ensures HasDir(AddName(tree, d, name), x) <==> HasDir(tree, x)
    ensures NamesAt(AddName(tree, d, name), x) == NamesAt(tree, x) + (if x == d && HasDir(tree, d) then {name} else {})
  {
    if tree != [] && tree[0].dir != d {
      AddNameFacts(tree[1..], d, name, x);
      AddNameFacts(tree[1..], d, name, tree[0].dir);
    }
  }

  lemma {:induction false} AddDirsFacts(tree: seq<DirEntry>, parts: seq<string>, k: nat, x: string)
    requires |parts| >= 2 && k <= |parts| - 1
    requires DistinctDirs(tree)
    ensures DistinctDirs(AddDirs(tree, parts, k))
    ensures HasDir(AddDirs(tree, parts, k), x) <==> HasDir(tree, x) || x in PrefixesUpTo(parts, k)
    ensures NamesAt(AddDirs(tree, parts, k), x)
         == NamesAt(tree, x) + (if k == |parts| - 1 && x == Prefix(parts, k) then {parts[|parts| - 1]} else {})
  {
    if k > 0 {
      var prev := AddDirs(tree, parts, k - 1);
      var d := Prefix(parts, k);
      AddDirsFacts(tree, parts, k - 1, x);
      assert NamesAt(prev, x) == NamesAt(tree, x);
      TouchFacts(prev, d, x);
      TouchFacts(prev, d, d);
      var t := Touch(prev, d);
      if k - 1 == |parts| - 2 {
        assert AddDirs(tree, parts, k) == AddName(t, d, parts[|parts| - 1]);
        AddNameFacts(t, d, parts[|parts| - 1], x);
      } else {
        assert AddDirs(tree, parts, k) == t;
      }
      assert PrefixesUpTo(parts, k) == PrefixesUpTo(parts, k - 1) + [d];
    }
  }

  lemma AddPathFacts(tree: seq<DirEntry>, relativePath: string, x: string)
    requires DistinctDirs(tree)
    ensures DistinctDirs(AddPath(tree, relativePath))
    ensures HasDir(AddPath(tree, relativePath), x) <==> HasDir(tree, x) || x in Ancestors(relativePath)
    ensures NamesAt(AddPath(tree, relativePath), x)
         == NamesAt(tree, x) + (if x == ParentDir(relativePath) then {FileName(relativePath)} else {})
  {
    var parts := Parts(relativePath);
    if |parts| == 1 {
      TouchFacts(tree, ".", x);
      TouchFacts(tree, ".", ".");
      AddNameFacts(Touch(tree, "."), ".", parts[0], x);
    } else {
      AddDirsFacts(tree, parts, |parts| - 1, x);
    }
  }

  /** The map has one key per distinct directory any file lists, and the set
      under each key holds the names of exactly the files directly in it. */
  lemma {:induction false} TreeCorrect(files: seq<FileData>, x: string)
    ensures DistinctDirs(Tree(files))
    ensures HasDir(Tree(files), x) <==> x in AllDirs(files)
    ensures NamesAt(Tree(files), x) == NamesIn(files, x)
  {
    if files != [] {
      var init, f := files[..|files| - 1], files[|files| - 1];
      TreeCorrect(init, x);
      AddPathFacts(Tree(init), f.relativePath, x);
      LastSplit(files);
      FlatMapSnoc(AncestorsOf, init, f);
    }
  }

  /** A file listed twice adds nothing to its directory's count. */
  lemma {:induction false} RepeatedFileCountedOnce(files: seq<FileData>, i: nat, d: string)
    requires i < |files|
    ensures NamesIn(files + [files[i]], d) == NamesIn(files, d)
  {
    NameListed(files, i);
    assert (files + [files[i]])[..|files|] == files;
  }

  lemma {:induction false} NameListed(files: seq<FileData>, i: nat)
    requires i < |files|
    ensures FileName(files[i].relativePath) in NamesIn(files, ParentDir(files[i].relativePath))
  {
    if i < |files| - 1 {
      NameListed(files[..|files| - 1], i);
    }
  }

  // ---------------------------------------------------------------------------
  // Rendering
  // ---------------------------------------------------------------------------

  function DirOf(e: DirEntry): string
  {
    e.dir
  }

  /** `Array.from(tree.keys())`. */
  function Dirs(tree: seq<DirEntry>): seq<string>
  {
    Map(DirOf, tree)
  }

  /** `tree.keys()` sorted with the default (code-unit) order. */
  function SortedDirs(files: seq<FileData>): seq<string>
  {
    SortBy(Dirs(Tree(files)), CodeUnitLeq)
  }

  /** One line: two spaces per path part (none for `.`), the last part, a
      slash and the number of distinct files directly inside. */
  function TreeLine(d: string, count: nat): string
  {
    var indent := if d == "." then "" else Repeat(' ', 2 * |Split(d, {'/'})|);
    var display := if d == "." then "." else LastSegment(d, {'/'});
    indent + display + "/ (" + Format(count) + " files)"
  }

  /** One line per directory of `dirs`, counting the names `tree` holds for it. */
  function TreeLines(dirs: seq<string>, tree: seq<DirEntry>): (r: seq<string>)
    ensures |r| == |dirs|
    ensures forall i :: 0 <= i < |dirs| ==> r[i] == TreeLine(dirs[i], |NamesAt(tree, dirs[i])|)
  {
    if dirs == [] then [] else TreeLines(dirs[..|dirs| - 1], tree) + [TreeLine(dirs[|dirs| - 1], |NamesAt(tree, dirs[|dirs| - 1])|)]
  }

  /** `generateProjectTree`. */
  function TreeText(files: seq<FileData>): string
  {
    Join(["Project structure:"] + TreeLines(SortedDirs(files), Tree(files)), "\n")
  }

  lemma {:induction false} HasDirIn(tree: seq<DirEntry>, x: string)
    ensures HasDir(tree, x) <==> x in Dirs(tree)
  {
    if tree != [] {
      HasDirIn(tree[1..], x);
      assert Dirs(tree) == [tree[0].dir] + Dirs(tree[1..]);
    }
  }

  /** The listed directories are, in code-unit order, exactly the directories
      some file lists. */
  lemma SortedDirsCorrect(files: seq<FileData>, x: string)
    ensures SortedBy(SortedDirs(files), CodeUnitLeq)
    ensures x in SortedDirs(files) <==> x in AllDirs(files)
  {
    CodeUnitTotalPreorder();
    SortBySorted(Dirs(Tree(files)), CodeUnitLeq);
    TreeCorrect(files, x);
    HasDirIn(Tree(files), x);
    assert x in SortedDirs(files) <==> x in multiset(SortedDirs(files));
    assert x in Dirs(Tree(files)) <==> x in multiset(Dirs(Tree(files)));
  }

  /** `Prefix` ends with its last part. */
  lemma PrefixSnoc(parts: seq<string>, k: nat)
    requires 2 <= k <= |parts|
    ensures Prefix(parts, k) == Prefix(parts, k - 1) + "/" + parts[k - 1]
  {
    assert parts[..k] == parts[..k - 1] + [parts[k - 1]];
    JoinSnoc(parts[..k - 1], parts[k - 1], "/");
  }

  /** The line of the directory made of the first `k` parts of a path is
      indented by two spaces per part and shows the `k`-th part. */
  lemma DirLine(relativePath: string, k: nat, count: nat)
    requires 1 <= k < |Parts(relativePath)|
    requires Prefix(Parts(relativePath), k) != "."
    ensures TreeLine(Prefix(Parts(relativePath), k), count)
         == Repeat(' ', 2 * k) + Parts(relativePath)[k - 1] + "/ (" + Format(count) + " files)"
  {
    var parts := Parts(relativePath);
    var d := Prefix(parts, k);
    forall i | 0 <= i < k ensures NoSep(parts[..k][i], {'/'}) {
      assert parts[..k][i] == parts[i];
    }
    SplitJoin(parts[..k], '/');
    if k == 1 {
      assert d == parts[0];
      LastSegmentNoSep(parts[0], {'/'});
    } else {
      PrefixSnoc(parts, k);
      LastSegmentAfterSep(Prefix(parts, k - 1), '/', parts[k - 1], {'/'});
    }
  }
}
