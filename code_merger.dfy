/** The merge run of lib/core/codeMerger.ts (class CodeMerger): collect the
    text files the include globs match, render the report and the framed
    contents, write the result. Globbing, the file system and the clock are
    outside the model: `glob`, `existsSync`, `readFileSync` and
    `writeFileSync` are the fields of a `FileSystem` value, the timestamp and
    the `toLocaleString` formatter are parameters, and `localeCompare` is the
    comparator `pathLeq`. */
module CodeMerger {
  import opened Wrappers
  import opened Text
  import opened Seqs
  import opened Sorting
  import opened Types
  import opened FileUtils
  import opened MergeReport
  import opened Breakdown
  import opened ProjectTree

  /** What a `catch` receives: an `Error` with its message, or any other value. */
  datatype Thrown = ErrorValue(message: string) | OtherValue

  /** `error instanceof Error ? error.message : 'Unknown error'`. */
  function ErrorMessage(t: Thrown): string
  {
    match t
    case ErrorValue(m) => m
    case OtherValue => "Unknown error"
  }

  /** The foreign calls a merge makes. `glob(pattern, cwd, ignore)` yields the
      matched relative paths or throws; `read` is `None` when reading throws;
      `write` yields what it throws, if anything. */
  datatype FileSystem = FileSystem(
    glob: (string, string, seq<string>) -> Result<seq<string>, Thrown>,
    fileExists: string -> bool,
    read: string -> Option<string>,
    write: (string, string) -> Option<Thrown>)

  /** `resolve(inputPath, file)` for a relative match. */
  function FullPath(inputPath: string, file: string): string
  {
    inputPath + "/" + file
  }

  /** What one matched path contributes: the file, if it exists, is text and
      can be read; nothing otherwise. */
  function Matched(fs: FileSystem, inputPath: string, file: string): seq<FileData>
  {
    var full := FullPath(inputPath, file);
    if fs.fileExists(full) && IsTextFile(full) then
      match fs.read(full)
      case Some(content) => [FileData(full, content, file)]
      case None => []
    else []
  }

  /** `Matched` as the callback of the loop over the matches. */
  function MatchOf(fs: FileSystem, inputPath: string): string -> seq<FileData>
  {
    (file: string) => Matched(fs, inputPath, file)
  }

  function MatchedAll(fs: FileSystem, inputPath: string, files: seq<string>): seq<FileData>
  {
    FlatMap(MatchOf(fs, inputPath), files)
  }

  /** The files of the include patterns, pattern by pattern and match by match,
      before sorting; the first glob that throws ends the collection. */
  function Gathered(fs: FileSystem, options: MergeOptions, patterns: seq<string>): Result<seq<FileData>, Thrown>
  {
    if patterns == [] then Ok([])
    else
      match Gathered(fs, options, patterns[..|patterns| - 1])
      case Err(e) => Err(e)
      case Ok(files) =>
        match fs.glob(patterns[|patterns| - 1], options.inputPath, options.ignorePatterns)
        case Err(e) => Err(e)
        case Ok(matched) => Ok(files + MatchedAll(fs, options.inputPath, matched))
  }

  /** `(a, b) => a.relativePath.localeCompare(b.relativePath)`. */
  function ByRelativePath(pathLeq: (string, string) -> bool): (FileData, FileData) -> bool
  {
    (a: FileData, b: FileData) => pathLeq(a.relativePath, b.relativePath)
  }

  lemma ByRelativePathPreorder(pathLeq: (string, string) -> bool)
    requires TotalPreorder(pathLeq)
    ensures TotalPreorder(ByRelativePath(pathLeq))
  {
    var leq := ByRelativePath(pathLeq);
    forall a, b ensures leq(a, b) || leq(b, a) {
      assert pathLeq(a.relativePath, b.relativePath) || pathLeq(b.relativePath, a.relativePath);
    }
    forall a, b, c | leq(a, b) && leq(b, c) ensures leq(a, c) {
      assert pathLeq(a.relativePath, b.relativePath) && pathLeq(b.relativePath, c.relativePath);
    }
  }

  /** What `collectFiles` resolves to, or the value it rejects with. */
  function Collected(fs: FileSystem, options: MergeOptions, pathLeq: (string, string) -> bool): Result<seq<FileData>, Thrown>
  {
    match Gathered(fs, options, options.includePatterns)
    case Err(e) => Err(e)
    case Ok(files) => Ok(SortBy(files, ByRelativePath(pathLeq)))
  }

  /** The result of a run that threw `e`. */
  function Failure(options: MergeOptions, e: Thrown): MergeResult
  {
    MergeResult(false, options.outputPath, 0, [ErrorMessage(e)])
  }

  /** `execute` for a given rendering: the result, and the text handed to the
      write (absent when collection threw first). */
  function ExecuteWith(fs: FileSystem, options: MergeOptions, pathLeq: (string, string) -> bool,
                       render: seq<FileData> -> string): (r: (MergeResult, Option<string>))
    ensures r.0.outputPath == options.outputPath
    ensures r.0.success ==> Collected(fs, options, pathLeq).Ok?
                            && r.0.filesProcessed == |Collected(fs, options, pathLeq).value| && r.0.errors == []
    ensures !r.0.success ==> r.0.filesProcessed == 0 && |r.0.errors| == 1
    ensures r.0.success <==> Collected(fs, options, pathLeq).Ok?
                             && fs.write(options.outputPath, render(Collected(fs, options, pathLeq).value)).None?
    ensures r.1.Some? <==> Collected(fs, options, pathLeq).Ok?
  {
    match Collected(fs, options, pathLeq)
    case Err(e) => (Failure(options, e), None)
    case Ok(files) =>
      var text := render(files);
      match fs.write(options.outputPath, text)
      case Some(e) => (Failure(options, e), Some(text))
      case None => (MergeResult(true, options.outputPath, |files|, []), Some(text))
  }

  /** `mergeFiles`: the full document for the collected files. */
  function MergedText(inputPath: string, files: seq<FileData>, timestamp: string, fmt: nat -> string): string
  {
    var header := Header(timestamp, inputPath, |files|, TotalLines(files), TotalChars(files),
                         BreakdownText(files, fmt), TreeText(files), FileIndex(files, fmt));
    Document(header, Body(files))
  }

  // ---------------------------------------------------------------------------
  // Properties of the collection
  // ---------------------------------------------------------------------------

  predicate Admitted(fs: FileSystem, inputPath: string, f: FileData)
  {
    f.path == FullPath(inputPath, f.relativePath)
    && fs.fileExists(f.path) && IsTextFile(f.path) && fs.read(f.path) == Some(f.content)
  }

  lemma MatchedAdmitted(fs: FileSystem, inputPath: string, files: seq<string>)
    ensures forall i :: 0 <= i < |MatchedAll(fs, inputPath, files)| ==> Admitted(fs, inputPath, MatchedAll(fs, inputPath, files)[i])
  {
    var f := MatchOf(fs, inputPath);
    FlatMapAll(f, files, (d: FileData) => Admitted(fs, inputPath, d));
  }

  lemma {:induction false} GatheredAdmitted(fs: FileSystem, options: MergeOptions, patterns: seq<string>)
    requires Gathered(fs, options, patterns).Ok?
    ensures forall i :: 0 <= i < |Gathered(fs, options, patterns).value|
              ==> Admitted(fs, options.inputPath, Gathered(fs, options, patterns).value[i])
  {
    if patterns != [] {
      GatheredAdmitted(fs, options, patterns[..|patterns| - 1]);
      var m := fs.glob(patterns[|patterns| - 1], options.inputPath, options.ignorePatterns);
      MatchedAdmitted(fs, options.inputPath, m.value);
    }
  }

  /** Every collected file exists, is text, was read, and sits at its relative
      path under the input directory. */
  lemma CollectedAdmitted(fs: FileSystem, options: MergeOptions, pathLeq: (string, string) -> bool)
    requires Collected(fs, options, pathLeq).Ok?
    ensures forall i :: 0 <= i < |Collected(fs, options, pathLeq).value|
              ==> Admitted(fs, options.inputPath, Collected(fs, options, pathLeq).value[i])
  {
    var gathered := Gathered(fs, options, options.includePatterns).value;
    var files := SortBy(gathered, ByRelativePath(pathLeq));
    assert Collected(fs, options, pathLeq).value == files;
    GatheredAdmitted(fs, options, options.includePatterns);
    forall i | 0 <= i < |files| ensures Admitted(fs, options.inputPath, files[i]) {
      assert files[i] in multiset(gathered);
      var j :| 0 <= j < |gathered| && gathered[j] == files[i];
    }
  }

  /** The collected list is what the patterns matched, reordered by relative
      path (ordered whenever the comparator is a total preorder). */
  lemma CollectedSorted(fs: FileSystem, options: MergeOptions, pathLeq: (string, string) -> bool)
    requires Collected(fs, options, pathLeq).Ok?
    ensures multiset(Collected(fs, options, pathLeq).value) == multiset(Gathered(fs, options, options.includePatterns).value)
    ensures TotalPreorder(pathLeq) ==> SortedBy(Collected(fs, options, pathLeq).value, ByRelativePath(pathLeq))
  {
    var gathered := Gathered(fs, options, options.includePatterns).value;
    if TotalPreorder(pathLeq) {
      ByRelativePathPreorder(pathLeq);
      SortBySorted(gathered, ByRelativePath(pathLeq));
    }
  }

  /** A matched file that cannot be read is skipped; the rest still counts. */
  lemma UnreadableSkipped(fs: FileSystem, inputPath: string, before: seq<string>, file: string, after: seq<string>)
    requires fs.read(FullPath(inputPath, file)).None?
    ensures MatchedAll(fs, inputPath, before + [file] + after) == MatchedAll(fs, inputPath, before + after)
  {
    var f := MatchOf(fs, inputPath);
    assert f(file) == [];
    assert FlatMap(f, before + [file]) == FlatMap(f, before) by {
      FlatMapSnoc(f, before, file);
    }
    FlatMapAppend(f, before + [file], after);
    FlatMapAppend(f, before, after);
  }

  /** No deduplication: a pattern listed twice collects its files twice. */
  lemma RepeatedPatternCollectsTwice(fs: FileSystem, options: MergeOptions, p: string)
    requires fs.glob(p, options.inputPath, options.ignorePatterns).Ok?
    ensures var m := MatchedAll(fs, options.inputPath, fs.glob(p, options.inputPath, options.ignorePatterns).value);
      Gathered(fs, options, [p, p]) == Ok(m + m)
  {
    var m := MatchedAll(fs, options.inputPath, fs.glob(p, options.inputPath, options.ignorePatterns).value);
    assert [p][..0] == [];
    assert Gathered(fs, options, [p]) == Ok([] + m);
    assert [] + m == m;
    assert [p, p][..1] == [p];
  }

  /** Once a glob has thrown, later patterns change nothing. */
  lemma {:induction false} GatheredErrSticks(fs: FileSystem, options: MergeOptions, patterns: seq<string>, k: nat)
    requires k <= |patterns| && Gathered(fs, options, patterns[..k]).Err?
    ensures Gathered(fs, options, patterns) == Gathered(fs, options, patterns[..k])
  {
    if k < |patterns| {
      var init := patterns[..|patterns| - 1];
      assert init[..k] == patterns[..k];
      GatheredErrSticks(fs, options, init, k);
    } else {
      assert patterns[..k] == patterns;
    }
  }

  // ---------------------------------------------------------------------------
  // The class
  // ---------------------------------------------------------------------------

  class CodeMerger {
    const options: MergeOptions

    constructor(options: MergeOptions)
      ensures this.options == options
    {
      this.options := options;
    }

    /** `collectFiles`: every include pattern in turn, every match in turn, then
        a sort by relative path. */
    method CollectFiles(fs: FileSystem, pathLeq: (string, string) -> bool) returns (r: Result<seq<FileData>, Thrown>)
      ensures r == Collected(fs, options, pathLeq)
    {
      var files: seq<FileData> := [];
      var patterns := options.includePatterns;
      for i := 0 to |patterns|
        invariant Gathered(fs, options, patterns[..i]) == Ok(files)
      {
        assert patterns[..i + 1][..i] == patterns[..i];
        var globbed := fs.glob(patterns[i], options.inputPath, options.ignorePatterns);
        if globbed.Err? {
          GatheredErrSticks(fs, options, patterns, i + 1);
          return Err(globbed.error);
        }
        var found := ReadMatches(fs, options.inputPath, globbed.value);
        files := files + found;
      }
      assert patterns[..|patterns|] == patterns;
      return Ok(SortBy(files, ByRelativePath(pathLeq)));
    }

    /** The inner loop of `collectFiles`: each match that exists, is text and
        can be read, in match order. */
    method ReadMatches(fs: FileSystem, inputPath: string, matched: seq<string>) returns (found: seq<FileData>)
      ensures found == MatchedAll(fs, inputPath, matched)
    {
      found := [];
      for j := 0 to |matched|
        invariant found == MatchedAll(fs, inputPath, matched[..j])
      {
        assert matched[..j + 1] == matched[..j] + [matched[j]];
        FlatMapSnoc(MatchOf(fs, inputPath), matched[..j], matched[j]);
        var file := matched[j];
        var fullPath := FullPath(inputPath, file);
        if fs.fileExists(fullPath) && IsTextFile(fullPath) {
          var content := fs.read(fullPath);
          if content.Some? {
            found := found + [FileData(fullPath, content.value, file)];
          }
        }
      }
      assert matched[..|matched|] == matched;
    }

    /** `generateBreakdown`: tally the files into the map, sort the entries by
        count, render one row per entry. */
    method GenerateBreakdown(files: seq<FileData>, fmt: nat -> string) returns (text: string)
      ensures text == BreakdownText(files, fmt)
    {
      var typeMap := TallyTypes(files);
      var sorted := SortBy(typeMap, ByCountDesc);
      var rows := RenderRows(sorted, fmt);
      text := Join(["File types:"] + rows, "\n");
    }

    /** The tally loop of `generateBreakdown`: one map update per file. */
    method TallyTypes(files: seq<FileData>) returns (typeMap: seq<TypeStat>)
      ensures typeMap == TypeStats(files)
    {
      typeMap := [];
      for i := 0 to |files|
        invariant typeMap == TypeStats(files[..i])
      {
        assert files[..i + 1][..i] == files[..i];
        var ext := ExtensionOf(files[i].relativePath);
        var lines := LineCount(files[i].content);
        typeMap := Record(typeMap, ext, lines);
      }
      assert files[..|files|] == files;
    }

    /** The rendering loop of `generateBreakdown`: one line per sorted entry. */
    method RenderRows(sorted: seq<TypeStat>, fmt: nat -> string) returns (rows: seq<string>)
      ensures rows == RowLines(sorted, fmt)
    {
      rows := [];
      for i := 0 to |sorted|
        invariant rows == RowLines(sorted[..i], fmt)
      {
        assert sorted[..i + 1][..i] == sorted[..i];
        rows := rows + [Row(sorted[i], fmt)];
      }
      assert sorted[..|sorted|] == sorted;
    }

    /** `generateProjectTree`: fill the directory map file by file, then one
        line per directory in code-unit order. */
    method GenerateProjectTree(files: seq<FileData>) returns (text: string)
      ensures text == TreeText(files)
    {
      var tree := BuildTree(files);
      var sortedDirs := SortBy(Dirs(tree), CodeUnitLeq);
      var lines := RenderTree(sortedDirs, tree);
      text := Join(["Project structure:"] + lines, "\n");
    }

    /** The `forEach` over the files that fills the directory map. */
    method BuildTree(files: seq<FileData>) returns (tree: seq<DirEntry>)
      ensures tree == Tree(files)
    {
      tree := [];
      for n := 0 to |files|
        invariant tree == Tree(files[..n])
      {
        assert files[..n + 1][..n] == files[..n];
        tree := AddFile(tree, files[n].relativePath);
      }
      assert files[..|files|] == files;
    }

    /** One file: register each of its directories and add its name to the
        deepest one (`.` for a file at the root). */
    method AddFile(tree0: seq<DirEntry>, relativePath: string) returns (tree: seq<DirEntry>)
      ensures tree == AddPath(tree0, relativePath)
    {
      var parts := Split(relativePath, PathSeps);
      tree := tree0;
      if |parts| == 1 {
        tree := Touch(tree, ".");
        tree := AddName(tree, ".", parts[0]);
      } else {
        for i := 0 to |parts| - 1
          invariant tree == AddDirs(tree0, parts, i)
        {
          var dir := Join(parts[..i + 1], "/");
          tree := Touch(tree, dir);
          if i == |parts| - 2 {
            tree := AddName(tree, dir, parts[|parts| - 1]);
          }
        }
      }
    }

    /** The rendering loop of `generateProjectTree`: one line per directory. */
    method RenderTree(sortedDirs: seq<string>, tree: seq<DirEntry>) returns (lines: seq<string>)
      ensures lines == TreeLines(sortedDirs, tree)
    {
      lines := [];
      for i := 0 to |sortedDirs|
        invariant lines == TreeLines(sortedDirs[..i], tree)
      {
        assert sortedDirs[..i + 1][..i] == sortedDirs[..i];
        var dir := sortedDirs[i];
        lines := lines + [TreeLine(dir, |NamesAt(tree, dir)|)];
      }
      assert sortedDirs[..|sortedDirs|] == sortedDirs;
    }

    /** `mergeFiles`. */
    method MergeFiles(files: seq<FileData>, timestamp: string, fmt: nat -> string) returns (text: string)
      ensures text == MergedText(options.inputPath, files, timestamp, fmt)
    {
      var breakdown := GenerateBreakdown(files, fmt);
      var projectTree := GenerateProjectTree(files);
      var fileIndex := FileIndex(files, fmt);
      var header := Header(timestamp, options.inputPath, |files|, TotalLines(files), TotalChars(files),
                           breakdown, projectTree, fileIndex);
      text := Document(header, Body(files));
    }

    /** `execute`: collect, merge, write; anything thrown becomes a failed result. */
    method Execute(fs: FileSystem, timestamp: string, fmt: nat -> string, pathLeq: (string, string) -> bool)
      returns (result: MergeResult, written: Option<string>)
      ensures (result, written)
           == ExecuteWith(fs, options, pathLeq, (files: seq<FileData>) => MergedText(options.inputPath, files, timestamp, fmt))
      ensures result.success ==> result.errors == [] && result.filesProcessed == |Collected(fs, options, pathLeq).value|
      ensures !result.success ==> result.filesProcessed == 0 && |result.errors| == 1
    {
      var collected := CollectFiles(fs, pathLeq);
      if collected.Err? {
        return Failure(options, collected.error), None;
      }
      var files := collected.value;
      var content := MergeFiles(files, timestamp, fmt);
      var thrown := fs.write(options.outputPath, content);
      if thrown.Some? {
        return Failure(options, thrown.value), Some(content);
      }
      return MergeResult(true, options.outputPath, |files|, []), Some(content);
    }
  }
}
