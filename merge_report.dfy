/** The text a merge produces (lib/core/codeMerger.ts, `mergeFiles`,
    `generateHeader`, `generateFileIndex`; the framing is shared with
    src/core/codeMerger.ts). Numbers interpolated into text are rendered with
    `String(n)`; numbers passed through `toLocaleString` go through the
    locale-dependent formatter `fmt`. */
module MergeReport {
  import opened Text
  import opened Decimal
  import opened Seqs
  import opened Types

  /** `content.split('\n').length`. */
  function LineCount(content: string): (n: nat)
    ensures n == Count(content, {'\n'}) + 1
    ensures n >= 1
  {
    |Split(content, {'\n'})|
  }

  function FileLines(f: FileData): nat
  {
    LineCount(f.content)
  }

  function FileChars(f: FileData): nat
  {
    |f.content|
  }

  /** `totalLines`: the line counts of all files added up. */
  function TotalLines(files: seq<FileData>): nat
  {
    Sum(FileLines, files)
  }

  /** `totalChars`: the lengths of all contents added up. */
  function TotalChars(files: seq<FileData>): nat
  {
    Sum(FileChars, files)
  }

  /** Every file counts at least one line, so there are at least as many lines as files. */
  lemma {:induction false} TotalLinesAtLeastFiles(files: seq<FileData>)
    ensures TotalLines(files) >= |files|
  {
    if files != [] {
      TotalLinesAtLeastFiles(files[..|files| - 1]);
    }
  }

  // ---------------------------------------------------------------------------
  // Per-file framing and the document
  // ---------------------------------------------------------------------------

  const Dashes: string := Repeat('-', 40)
  const Rule: string := Repeat('=', 80)

  /** The block of one file: start marker, dashes, the content, dashes, end
      marker and an empty line, joined by newlines. */
  function Block(f: FileData): string
  {
    Join(["STARTOFFILE: " + f.relativePath, Dashes, f.content, Dashes, "ENDOFFILE: " + f.relativePath, ""], "\n")
  }

  /** The blocks of all files, in collection order, joined by newlines. */
  function Body(files: seq<FileData>): string
  {
    Join(Map(Block, files), "\n")
  }

  /** The whole output: header, the 80-character rule, an empty line, the body. */
  function Document(header: string, body: string): string
  {
    Join([header, Rule, "", body], "\n")
  }

  lemma JoinLiteral(parts: seq<string>, sep: string)
    requires |parts| >= 2
    ensures Join(parts, sep) == parts[0] + sep + Join(parts[1..], sep)
  {
  }

  /** Five lines and a final empty one, joined by newlines: each of the five is
      followed by a newline. */
  lemma JoinFramed(a: string, b: string, c: string, d: string, e: string)
    ensures Join([a, b, c, d, e, ""], "\n") == a + "\n" + b + "\n" + c + "\n" + d + "\n" + e + "\n"
  {
    var parts := [a, b, c, d, e, ""];
    assert parts[5..] == [""];
    JoinLiteral(parts[4..], "\n");
    JoinLiteral(parts[3..], "\n");
    JoinLiteral(parts[2..], "\n");
    JoinLiteral(parts[1..], "\n");
    JoinLiteral(parts, "\n");
  }

  /** A block is the content framed verbatim: it starts with the start line and
      the dashes, then the content, then the dashes, the end line and a newline. */
  lemma BlockLayout(f: FileData)
    ensures Block(f) == "STARTOFFILE: " + f.relativePath + "\n" + Dashes + "\n" + f.content + "\n"
                        + Dashes + "\n" + "ENDOFFILE: " + f.relativePath + "\n"
  {
    JoinFramed("STARTOFFILE: " + f.relativePath, Dashes, f.content, Dashes, "ENDOFFILE: " + f.relativePath);
  }

  lemma SliceMiddle(pre: string, x: string, post: string)
    ensures (pre + x + post)[|pre|..|pre| + |x|] == x
  {
  }

  /** The content appears unchanged right after the start line and the dashes. */
  lemma ContentVerbatim(f: FileData)
    ensures var k := |"STARTOFFILE: " + f.relativePath| + 1 + |Dashes| + 1;
      k + |f.content| <= |Block(f)| && Block(f)[k..k + |f.content|] == f.content
  {
    var pre := "STARTOFFILE: " + f.relativePath + "\n" + Dashes + "\n";
    var post := "\n" + Dashes + "\n" + "ENDOFFILE: " + f.relativePath + "\n";
    assert Block(f) == pre + f.content + post by {
      BlockLayout(f);
    }
    SliceMiddle(pre, f.content, post);
  }

  /** Five newline-free lines around one content line: the joined block has
      five newlines more than the content. */
  lemma CountFramed(a: string, b: string, c: string, d: string, e: string)
    requires Count(a, {'\n'}) == 0 && Count(b, {'\n'}) == 0
    requires Count(d, {'\n'}) == 0 && Count(e, {'\n'}) == 0
    ensures Count(Join([a, b, c, d, e, ""], "\n"), {'\n'}) == Count(c, {'\n'}) + 5
  {
    var parts := [a, b, c, d, e, ""];
    var nl := {'\n'};
    CountJoin(parts, '\n');
    assert CountAll(parts[5..], nl) == 0 by {
      assert parts[5..][1..] == [];
    }
    assert CountAll(parts[4..], nl) == 0 by {
      assert parts[4..][1..] == parts[5..];
    }
    assert CountAll(parts[3..], nl) == 0 by {
      assert parts[3..][1..] == parts[4..];
    }
    assert CountAll(parts[2..], nl) == Count(c, nl) by {
      assert parts[2..][1..] == parts[3..];
    }
    assert CountAll(parts[1..], nl) == Count(c, nl) by {
      assert parts[1..][1..] == parts[2..];
    }
  }

  /** A block spans five more lines than its content. */
  lemma BlockLineCount(f: FileData)
    requires NoSep(f.relativePath, {'\n'})
    ensures LineCount(Block(f)) == LineCount(f.content) + 5
  {
    var nl := {'\n'};
    assert Count("STARTOFFILE: " + f.relativePath, nl) == 0 by {
      assert NoSep("STARTOFFILE: ", nl);
      LabelCount("STARTOFFILE: ", f.relativePath);
    }
    assert Count("ENDOFFILE: " + f.relativePath, nl) == 0 by {
      assert NoSep("ENDOFFILE: ", nl);
      LabelCount("ENDOFFILE: ", f.relativePath);
    }
    CountNoSep(Dashes, nl);
    CountFramed("STARTOFFILE: " + f.relativePath, Dashes, f.content, Dashes, "ENDOFFILE: " + f.relativePath);
  }

  /** A marker followed by a path, neither holding a newline, holds none. */
  lemma LabelCount(tag: string, path: string)
    requires NoSep(tag, {'\n'}) && NoSep(path, {'\n'})
    ensures Count(tag + path, {'\n'}) == 0
  {
    CountAppend(tag, path, {'\n'});
    CountNoSep(tag, {'\n'});
    CountNoSep(path, {'\n'});
  }

  /** Blocks are emitted in collection order: one more file appends its block. */
  lemma BodySnoc(files: seq<FileData>, f: FileData)
    requires files != []
    ensures Body(files + [f]) == Body(files) + "\n" + Block(f)
  {
    JoinSnoc(Map(Block, files), Block(f), "\n");
    assert Map(Block, files + [f]) == Map(Block, files) + [Block(f)];
  }

  /** The document is the header, a newline, the rule, two newlines and the body. */
  lemma DocumentLayout(header: string, body: string)
    ensures Document(header, body) == header + "\n" + Rule + "\n" + "\n" + body
  {
    var parts := [header, Rule, "", body];
    JoinLiteral(parts, "\n");
    JoinLiteral(parts[1..], "\n");
    JoinLiteral(parts[2..], "\n");
    assert parts[3..] == [body];
  }

  // ---------------------------------------------------------------------------
  // Header and file index
  // ---------------------------------------------------------------------------

  /** `generateHeader` of lib/core/codeMerger.ts: twelve parts joined by newlines. */
  function Header(timestamp: string, inputPath: string, fileCount: nat, totalLines: nat, totalChars: nat,
                  breakdown: string, projectTree: string, fileIndex: string): string
  {
    Join([
      "# Code Merge Output",
      "Generated at: " + timestamp,
      "Source path: " + inputPath,
      "Files processed: " + Format(fileCount),
      "Total lines: " + Format(totalLines),
      "Total characters: " + Format(totalChars),
      "",
      breakdown,
      "",
      projectTree,
      "",
      fileIndex], "\n")
  }

  /** The first seven lines of the header are fixed labels with the run's data,
      whatever the three reports hold. */
  lemma HeaderLines(timestamp: string, inputPath: string, fileCount: nat, totalLines: nat, totalChars: nat,
                    breakdown: string, projectTree: string, fileIndex: string)
    requires NoSep(timestamp, {'\n'}) && NoSep(inputPath, {'\n'})
    ensures var lines := Split(Header(timestamp, inputPath, fileCount, totalLines, totalChars, breakdown, projectTree, fileIndex), {'\n'});
      |lines| >= 7
      && lines[..7] == ["# Code Merge Output", "Generated at: " + timestamp, "Source path: " + inputPath,
                        "Files processed: " + Format(fileCount), "Total lines: " + Format(totalLines),
                        "Total characters: " + Format(totalChars), ""]
  {
    var parts := [
      "# Code Merge Output",
      "Generated at: " + timestamp,
      "Source path: " + inputPath,
      "Files processed: " + Format(fileCount),
      "Total lines: " + Format(totalLines),
      "Total characters: " + Format(totalChars),
      "",
      breakdown,
      "",
      projectTree,
      "",
      fileIndex];
    DigitsNoNewline(Format(fileCount));
    DigitsNoNewline(Format(totalLines));
    DigitsNoNewline(Format(totalChars));
    forall k | 0 <= k < 7 ensures NoSep(parts[k], {'\n'}) {
    }
    SplitJoinPrefix(parts, 7, '\n');
  }

  lemma DigitsNoNewline(s: string)
    requires IsDigits(s)
    ensures NoSep(s, {'\n'})
  {
  }

  /** One line of the file index: the 1-based position right-aligned to two
      columns, the relative path and the formatted line count. */
  function IndexLine(position: nat, f: FileData, fmt: nat -> string): string
  {
    "  " + PadStart(Format(position), 2) + ". " + f.relativePath + " (" + fmt(LineCount(f.content)) + " lines)"
  }

  /** The index lines, the i-th numbered `i + 1`. */
  function IndexLines(files: seq<FileData>, fmt: nat -> string): seq<string>
  {
    seq(|files|, i requires 0 <= i < |files| => IndexLine(i + 1, files[i], fmt))
  }

  /** `generateFileIndex`. */
  function FileIndex(files: seq<FileData>, fmt: nat -> string): string
  {
    Join(["File index:"] + IndexLines(files, fmt), "\n")
  }

  /** When neither a path nor a formatted line count holds a newline, the index
      reads back line by line: the title, then one line per file in collection
      order, the i-th numbered `i + 1`. */
  lemma FileIndexLines(files: seq<FileData>, fmt: nat -> string)
    requires forall i :: 0 <= i < |files| ==> NoSep(files[i].relativePath, {'\n'})
    requires forall i :: 0 <= i < |files| ==> NoSep(fmt(LineCount(files[i].content)), {'\n'})
    ensures var lines := Split(FileIndex(files, fmt), {'\n'});
      |lines| == |files| + 1 && lines[0] == "File index:"
      && forall i :: 0 <= i < |files| ==> lines[i + 1] == IndexLine(i + 1, files[i], fmt)
  {
    var parts := ["File index:"] + IndexLines(files, fmt);
    IndexPartsNoNewline(files, fmt);
    SplitJoin(parts, '\n');
    IndexPartsAt(files, fmt);
  }

  lemma IndexPartsNoNewline(files: seq<FileData>, fmt: nat -> string)
    requires forall i :: 0 <= i < |files| ==> NoSep(files[i].relativePath, {'\n'})
    requires forall i :: 0 <= i < |files| ==> NoSep(fmt(LineCount(files[i].content)), {'\n'})
    ensures var parts := ["File index:"] + IndexLines(files, fmt);
      forall k :: 0 <= k < |parts| ==> NoSep(parts[k], {'\n'})
  {
    var index := IndexLines(files, fmt);
    var parts := ["File index:"] + index;
    forall k | 0 <= k < |parts| ensures NoSep(parts[k], {'\n'}) {
      if k > 0 {
        assert parts[k] == index[k - 1] == IndexLine(k, files[k - 1], fmt);
        IndexLineNoNewline(k, files[k - 1], fmt);
      }
    }
  }

  lemma IndexPartsAt(files: seq<FileData>, fmt: nat -> string)
    ensures var parts := ["File index:"] + IndexLines(files, fmt);
      |parts| == |files| + 1 && parts[0] == "File index:"
      && forall i :: 0 <= i < |files| ==> parts[i + 1] == IndexLine(i + 1, files[i], fmt)
  {
    var index := IndexLines(files, fmt);
    var parts := ["File index:"] + index;
    forall i | 0 <= i < |files| ensures parts[i + 1] == IndexLine(i + 1, files[i], fmt) {
      assert parts[i + 1] == index[i];
    }
  }

  lemma IndexLineNoNewline(position: nat, f: FileData, fmt: nat -> string)
    requires NoSep(f.relativePath, {'\n'}) && NoSep(fmt(LineCount(f.content)), {'\n'})
    ensures NoSep(IndexLine(position, f, fmt), {'\n'})
  {
    var s := Format(position);
    DigitsNoNewline(s);
    var field := PadStart(s, 2);
    assert NoSep(field, {'\n'}) by {
      if |s| < 2 {
        NoSepAppend(Repeat(' ', 2 - |s|), s, {'\n'});
      }
    }
    NoSepAppend("  ", field, {'\n'});
    NoSepAppend("  " + field, ". ", {'\n'});
    NoSepAppend("  " + field + ". ", f.relativePath, {'\n'});
    NoSepAppend("  " + field + ". " + f.relativePath, " (", {'\n'});
    NoSepAppend("  " + field + ". " + f.relativePath + " (", fmt(LineCount(f.content)), {'\n'});
    NoSepAppend("  " + field + ". " + f.relativePath + " (" + fmt(LineCount(f.content)), " lines)", {'\n'});
  }

  /** The position column reads back as the file's 1-based position. */
  lemma IndexPositionReadsBack(files: seq<FileData>, fmt: nat -> string, i: nat)
    requires i < |files|
    ensures var field := PadStart(Format(i + 1), 2);
      var digits := TrimStart(field);
      IsDigits(digits) && Parse(digits) == i + 1
      && IndexLines(files, fmt)[i] == "  " + field + ". " + files[i].relativePath + " (" + fmt(LineCount(files[i].content)) + " lines)"
  {
    PositionReadsBack(i + 1);
    IndexLineAt(files, fmt, i);
  }

  lemma IndexLineAt(files: seq<FileData>, fmt: nat -> string, i: nat)
    requires i < |files|
    ensures IndexLines(files, fmt)[i] == IndexLine(i + 1, files[i], fmt)
  {
  }

  /** A number padded to two columns trims and parses back to itself. */
  lemma PositionReadsBack(n: nat)
    ensures IsDigits(TrimStart(PadStart(Format(n), 2))) && Parse(TrimStart(PadStart(Format(n), 2))) == n
  {
    var s := Format(n);
    DigitNotSpace(s[0]);
    TrimStartPadded(s, 2);
    ParseFormat(n);
  }

  lemma TrimStartPadded(s: string, width: nat)
    requires s != [] && !IsJsSpace(s[0])
    ensures TrimStart(PadStart(s, width)) == s
  {
    if |s| < width {
      TrimStartSpaces(width - |s|, s);
    }
  }

  lemma DigitNotSpace(c: char)
    requires IsDigit(c)
    ensures !IsJsSpace(c)
  {
  }

  /** Leading spaces are all that `trimStart` removes before a non-space. */
  lemma {:induction false} TrimStartSpaces(n: nat, s: string)
    requires s != [] && !IsJsSpace(s[0])
    ensures TrimStart(Repeat(' ', n) + s) == s
  {
    if n == 0 {
      assert Repeat(' ', n) + s == s;
    } else {
      var rest := Repeat(' ', n - 1) + s;
      assert Repeat(' ', n) + s == [' '] + rest;
      assert ([' '] + rest)[1..] == rest;
      TrimStartSpaces(n - 1, s);
    }
  }
}
