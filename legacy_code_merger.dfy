/** The earlier merge run of src/core/codeMerger.ts. Its collection loops are
    those of the newer run; the file helpers it imports from src/utils are not
    part of this model and are taken to be those of lib/utils. It frames the
    files in the same blocks and puts a four-line header above them: no
    totals, no breakdown, no tree and no index. */
module LegacyCodeMerger {
  import opened Wrappers
  import opened Text
  import opened Decimal
  import opened Types
  import R = MergeReport
  import M = CodeMerger

  /** The four lines of `generateHeader`. */
  function HeaderParts(timestamp: string, inputPath: string, fileCount: nat): seq<string>
  {
    ["# Code Merge Output",
     "Generated at: " + timestamp,
     "Source path: " + inputPath,
     "Files processed: " + Format(fileCount)]
  }

  /** `generateHeader`: the four lines joined by newlines. */
  function Header(timestamp: string, inputPath: string, fileCount: nat): string
  {
    Join(HeaderParts(timestamp, inputPath, fileCount), "\n")
  }

  /** `mergeFiles`: header, the 80-character rule, an empty line, the blocks. */
  function MergedText(inputPath: string, files: seq<FileData>, timestamp: string): string
  {
    R.Document(Header(timestamp, inputPath, |files|), R.Body(files))
  }

  lemma HeaderPartsNoNewline(timestamp: string, inputPath: string, fileCount: nat)
    requires NoSep(timestamp, {'\n'}) && NoSep(inputPath, {'\n'})
    ensures forall k :: 0 <= k < 4 ==> NoSep(HeaderParts(timestamp, inputPath, fileCount)[k], {'\n'})
  {
    R.DigitsNoNewline(Format(fileCount));
  }

  /** The header is exactly four lines when the timestamp and the input path
      hold no line break. */
  lemma HeaderLines(timestamp: string, inputPath: string, fileCount: nat)
    requires NoSep(timestamp, {'\n'}) && NoSep(inputPath, {'\n'})
    ensures Split(Header(timestamp, inputPath, fileCount), {'\n'})
         == ["# Code Merge Output", "Generated at: " + timestamp,
             "Source path: " + inputPath, "Files processed: " + Format(fileCount)]
  {
    HeaderPartsNoNewline(timestamp, inputPath, fileCount);
    SplitJoin(HeaderParts(timestamp, inputPath, fileCount), '\n');
  }

  /** The document is the four header lines, the rule and an empty line, then
      the body. */
  lemma DocumentLines(inputPath: string, files: seq<FileData>, timestamp: string)
    requires NoSep(timestamp, {'\n'}) && NoSep(inputPath, {'\n'})
    ensures var lines := Split(MergedText(inputPath, files, timestamp), {'\n'});
      |lines| >= 6
      && lines[..6] == HeaderParts(timestamp, inputPath, |files|) + [R.Rule, ""]
  {
    var head := HeaderParts(timestamp, inputPath, |files|);
    var parts := head + [R.Rule, "", R.Body(files)];
    R.DocumentLayout(Header(timestamp, inputPath, |files|), R.Body(files));
    JoinAppend(head, [R.Rule, "", R.Body(files)], "\n");
    R.JoinLiteral([R.Rule, "", R.Body(files)], "\n");
    R.JoinLiteral(["", R.Body(files)], "\n");
    assert [R.Rule, "", R.Body(files)][1..] == ["", R.Body(files)];
    assert ["", R.Body(files)][1..] == [R.Body(files)];
    assert MergedText(inputPath, files, timestamp) == Join(parts, "\n");
    HeaderPartsNoNewline(timestamp, inputPath, |files|);
    assert NoSep(R.Rule, {'\n'});
    forall k | 0 <= k < 6 ensures NoSep(parts[k], {'\n'}) {
      if k < 4 {
        assert parts[k] == head[k];
      }
    }
    SplitJoinPrefix(parts, 6, '\n');
    assert parts[..6] == head + [R.Rule, ""];
  }

  /** The newer header starts with the same four lines. */
  lemma NewerHeaderExtends(timestamp: string, inputPath: string, fileCount: nat, totalLines: nat,
                           totalChars: nat, breakdown: string, projectTree: string, fileIndex: string)
    requires NoSep(timestamp, {'\n'}) && NoSep(inputPath, {'\n'})
    ensures var newer := Split(R.Header(timestamp, inputPath, fileCount, totalLines, totalChars,
                                                  breakdown, projectTree, fileIndex), {'\n'});
      |newer| >= 4 && newer[..4] == Split(Header(timestamp, inputPath, fileCount), {'\n'})
  {
    R.HeaderLines(timestamp, inputPath, fileCount, totalLines, totalChars, breakdown, projectTree, fileIndex);
    HeaderLines(timestamp, inputPath, fileCount);
    var newer := Split(R.Header(timestamp, inputPath, fileCount, totalLines, totalChars,
                                          breakdown, projectTree, fileIndex), {'\n'});
    assert newer[..4] == newer[..7][..4];
  }

  class CodeMerger {
    const options: MergeOptions

    constructor(options: MergeOptions)
      ensures this.options == options
    {
      this.options := options;
    }

    /** `collectFiles`: the same nested loops as the newer run, over lib's file helpers. */
    method CollectFiles(fs: M.FileSystem, pathLeq: (string, string) -> bool) returns (r: Result<seq<FileData>, M.Thrown>)
      ensures r == M.Collected(fs, options, pathLeq)
    {
      var newer := new M.CodeMerger(options);
      r := newer.CollectFiles(fs, pathLeq);
    }

    /** `mergeFiles`. */
    method MergeFiles(files: seq<FileData>, timestamp: string) returns (text: string)
      ensures text == MergedText(options.inputPath, files, timestamp)
    {
      var header := Header(timestamp, options.inputPath, |files|);
      var separator := R.Rule;
      var mergedContent := R.Body(files);
      text := Join([header, separator, "", mergedContent], "\n");
    }

    /** `execute`: collect, merge, write; anything thrown becomes a failed result. */
    method Execute(fs: M.FileSystem, timestamp: string, pathLeq: (string, string) -> bool)
      returns (result: MergeResult, written: Option<string>)
      ensures (result, written)
           == M.ExecuteWith(fs, options, pathLeq, (files: seq<FileData>) => MergedText(options.inputPath, files, timestamp))
      ensures result.success ==> result.errors == [] && result.filesProcessed == |M.Collected(fs, options, pathLeq).value|
      ensures !result.success ==> result.filesProcessed == 0 && |result.errors| == 1
    {
      var collected := CollectFiles(fs, pathLeq);
      if collected.Err? {
        return M.Failure(options, collected.error), None;
      }
      var files := collected.value;
      var content := MergeFiles(files, timestamp);
      var thrown := fs.write(options.outputPath, content);
      if thrown.Some? {
        return M.Failure(options, thrown.value), Some(content);
      }
      return MergeResult(true, options.outputPath, |files|, []), Some(content);
    }
  }
}
