/** The "File types" report of lib/core/codeMerger.ts (`generateBreakdown`):
    a per-extension tally kept in an insertion-ordered map, listed by count,
    highest first, ties in first-seen order. */
module Breakdown {
  import opened Text
  import opened Decimal
  import opened Seqs
  import opened Sorting
  import opened Types
  import opened MergeReport

  /** `relativePath.split('.').pop() || 'unknown'`: the text after the last `.`
      (the whole path when it has none), or `unknown` when that is empty. */
  function ExtensionOf(relativePath: string): (r: string)
    ensures r != ""
    ensures r != "unknown" ==> NoSep(r, {'.'}) && EndsWith(relativePath, r)
  {
    var last := LastSegment(relativePath, {'.'});
    if last == "" then "unknown" else last
  }

  /** A path without any `.` is its own key; a path ending in `.` is `unknown`. */
  lemma ExtensionCases(p: string, e: string)
    ensures p != "" && NoSep(p, {'.'}) ==> ExtensionOf(p) == p
    ensures p != "" && p[|p| - 1] == '.' ==> ExtensionOf(p) == "unknown"
    ensures e != "" && NoSep(e, {'.'}) ==> ExtensionOf(p + "." + e) == e
  {
    if p != "" && NoSep(p, {'.'}) {
      LastSegmentNoSep(p, {'.'});
    }
    if e != "" && NoSep(e, {'.'}) {
      LastSegmentAfterSep(p, '.', e, {'.'});
    }
  }

  /** One row of the tally: an extension, how many files carry it and how many
      lines they hold. */
  datatype TypeStat = TypeStat(ext: string, count: nat, lines: nat)

  /** `typeMap.set(ext, ...)`: a key already present keeps its position. */
  function Record(stats: seq<TypeStat>, ext: string, lines: nat): (r: seq<TypeStat>)
    ensures |r| == |stats| || |r| == |stats| + 1
  {
    if stats == [] then [TypeStat(ext, 1, lines)]
    else if stats[0].ext == ext then [TypeStat(ext, stats[0].count + 1, stats[0].lines + lines)] + stats[1..]
    else [stats[0]] + Record(stats[1..], ext, lines)
  }

  /** The map after the `forEach` over `files`. */
  function TypeStats(files: seq<FileData>): seq<TypeStat>
  {
    if files == [] then []
    else
      var f := files[|files| - 1];
      Record(TypeStats(files[..|files| - 1]), ExtensionOf(f.relativePath), LineCount(f.content))
  }

  /** Whether `ext` already has a row. */
  predicate HasExt(stats: seq<TypeStat>, ext: string)
  {
    stats != [] && (stats[0].ext == ext || HasExt(stats[1..], ext))
  }

  /** No extension has two rows. */
  predicate DistinctExts(stats: seq<TypeStat>)
  {
    stats == [] || (!HasExt(stats[1..], stats[0].ext) && DistinctExts(stats[1..]))
  }

  /** The tally for one extension: `(0, 0)` when it is absent. */
  function CountOf(stats: seq<TypeStat>, ext: string): nat
  {
    if stats == [] then 0 else if stats[0].ext == ext then stats[0].count else CountOf(stats[1..], ext)
  }

  function LinesOf(stats: seq<TypeStat>, ext: string): nat
  {
    if stats == [] then 0 else if stats[0].ext == ext then stats[0].lines else LinesOf(stats[1..], ext)
  }

  function SumCounts(stats: seq<TypeStat>): nat
  {
    if stats == [] then 0 else stats[0].count + SumCounts(stats[1..])
  }

  function SumLines(stats: seq<TypeStat>): nat
  {
    if stats == [] then 0 else stats[0].lines + SumLines(stats[1..])
  }

  /** The reference count: how many of `files` have extension key `ext`. */
  function FilesWithExt(files: seq<FileData>, ext: string): nat
  {
    if files == [] then 0
    else FilesWithExt(files[..|files| - 1], ext) + (if ExtensionOf(files[|files| - 1].relativePath) == ext then 1 else 0)
  }

  /** The reference line total of the files with extension key `ext`. */
  function LinesWithExt(files: seq<FileData>, ext: string): nat
  {
    if files == [] then 0
    else
      var f := files[|files| - 1];
      LinesWithExt(files[..|files| - 1], ext) + (if ExtensionOf(f.relativePath) == ext then LineCount(f.content) else 0)
  }

  lemma {:induction false} RecordHas(stats: seq<TypeStat>, ext: string, lines: nat, x: string)
    ensures HasExt(Record(stats, ext, lines), x) <==> HasExt(stats, x) || x == ext
  {
    if stats != [] && stats[0].ext != ext {
      RecordHas(stats[1..], ext, lines, x);
    }
  }

  lemma {:induction false} RecordDistinct(stats: seq<TypeStat>, ext: string, lines: nat)
    requires DistinctExts(stats)
    ensures DistinctExts(Record(stats, ext, lines))
  {
    if stats != [] && stats[0].ext != ext {
      RecordDistinct(stats[1..], ext, lines);
      RecordHas(stats[1..], ext, lines, stats[0].ext);
    }
  }

  lemma {:induction false} RecordTally(stats: seq<TypeStat>, ext: string, lines: nat, e: string)
    requires DistinctExts(stats)
    ensures CountOf(Record(stats, ext, lines), e) == CountOf(stats, e) + (if e == ext then 1 else 0)
    ensures LinesOf(Record(stats, ext, lines), e) == LinesOf(stats, e) + (if e == ext then lines else 0)
  {
    if stats == [] {
    } else if stats[0].ext != ext {
      RecordTally(stats[1..], ext, lines, e);
    } else if e != ext {
      AbsentTally(stats[1..], e);
    }
  }

  lemma {:induction false} AbsentTally(stats: seq<TypeStat>, e: string)
    ensures !HasExt(stats, e) ==> CountOf(stats, e) == 0 && LinesOf(stats, e) == 0
  {
    if stats != [] {
      AbsentTally(stats[1..], e);
    }
  }

  lemma {:induction false} RecordSums(stats: seq<TypeStat>, ext: string, lines: nat)
    ensures SumCounts(Record(stats, ext, lines)) == SumCounts(stats) + 1
    ensures SumLines(Record(stats, ext, lines)) == SumLines(stats) + lines
  {
    if stats != [] && stats[0].ext != ext {
      RecordSums(stats[1..], ext, lines);
    }
  }

  /** The tally agrees with the reference counts, keys are distinct, and the
      counts add up to the number of files and the line totals to `totalLines`. */
  lemma TypeStatsCorrect(files: seq<FileData>, e: string)
    ensures DistinctExts(TypeStats(files))
    ensures CountOf(TypeStats(files), e) == FilesWithExt(files, e)
    ensures LinesOf(TypeStats(files), e) == LinesWithExt(files, e)
    ensures SumCounts(TypeStats(files)) == |files|
    ensures SumLines(TypeStats(files)) == TotalLines(files)
  {
    TypeStatsDistinct(files);
    TypeStatsCount(files, e);
    TypeStatsLines(files, e);
    TypeStatsSums(files);
  }

  /** No extension ever gets a second row. */
  lemma {:induction false} TypeStatsDistinct(files: seq<FileData>)
    ensures DistinctExts(TypeStats(files))
  {
    if files != [] {
      var init, f := files[..|files| - 1], files[|files| - 1];
      TypeStatsDistinct(init);
      RecordDistinct(TypeStats(init), ExtensionOf(f.relativePath), LineCount(f.content));
    }
  }

  /** Each key's row counts the files that carry it. */
  lemma {:induction false} TypeStatsCount(files: seq<FileData>, e: string)
    ensures CountOf(TypeStats(files), e) == FilesWithExt(files, e)
  {
    if files != [] {
      var init, f := files[..|files| - 1], files[|files| - 1];
      TypeStatsCount(init, e);
      TypeStatsDistinct(init);
      RecordTally(TypeStats(init), ExtensionOf(f.relativePath), LineCount(f.content), e);
    }
  }

  /** Each key's row holds the lines of the files that carry it. */
  lemma {:induction false} TypeStatsLines(files: seq<FileData>, e: string)
    ensures LinesOf(TypeStats(files), e) == LinesWithExt(files, e)
  {
    if files != [] {
      var init, f := files[..|files| - 1], files[|files| - 1];
      TypeStatsLines(init, e);
      TypeStatsDistinct(init);
      RecordTally(TypeStats(init), ExtensionOf(f.relativePath), LineCount(f.content), e);
    }
  }

  /** The counts add up to the number of files and the lines to `totalLines`. */
  lemma {:induction false} TypeStatsSums(files: seq<FileData>)
    ensures SumCounts(TypeStats(files)) == |files|
    ensures SumLines(TypeStats(files)) == TotalLines(files)
  {
    if files != [] {
      var init, f := files[..|files| - 1], files[|files| - 1];
      TypeStatsSums(init);
      var ext, n := ExtensionOf(f.relativePath), LineCount(f.content);
      assert TypeStats(files) == Record(TypeStats(init), ext, n);
      RecordSums(TypeStats(init), ext, n);
      LastSplit(files);
      SumSnoc(FileLines, init, f);
    }
  }

  /** An extension has a row exactly when some file carries it. */
  lemma {:induction false} TallyKeys(files: seq<FileData>, e: string)
    ensures HasExt(TypeStats(files), e) <==> FilesWithExt(files, e) > 0
  {
    if files != [] {
      var init, f := files[..|files| - 1], files[|files| - 1];
      TallyKeys(init, e);
      RecordHas(TypeStats(init), ExtensionOf(f.relativePath), LineCount(f.content), e);
    }
  }

  /** Rows are ordered by count, highest first (`b.count - a.count`). */
  predicate ByCountDesc(a: TypeStat, b: TypeStat)
  {
    a.count >= b.count
  }

  lemma ByCountDescTotalPreorder()
    ensures TotalPreorder(ByCountDesc)
  {
  }

  function Rows(files: seq<FileData>): seq<TypeStat>
  {
    SortBy(TypeStats(files), ByCountDesc)
  }

  /** The rows are the tally reordered: highest count first, and rows with equal
      counts in the order their extensions were first seen. */
  lemma RowsOrdered(files: seq<FileData>, k: TypeStat)
    ensures multiset(Rows(files)) == multiset(TypeStats(files))
    ensures SortedBy(Rows(files), ByCountDesc)
    ensures SameRank(Rows(files), k, ByCountDesc) == SameRank(TypeStats(files), k, ByCountDesc)
  {
    ByCountDescTotalPreorder();
    SortBySorted(TypeStats(files), ByCountDesc);
    SortByStable(TypeStats(files), k, ByCountDesc);
  }

  /** `  - ext: N files (L lines)`. */
  function Row(s: TypeStat, fmt: nat -> string): string
  {
    "  - " + s.ext + ": " + Format(s.count) + " files (" + fmt(s.lines) + " lines)"
  }

  /** `sorted.map(...)`: one row per entry. */
  function RowLines(stats: seq<TypeStat>, fmt: nat -> string): (r: seq<string>)
    ensures |r| == |stats|
    ensures forall i :: 0 <= i < |stats| ==> r[i] == Row(stats[i], fmt)
  {
    if stats == [] then [] else RowLines(stats[..|stats| - 1], fmt) + [Row(stats[|stats| - 1], fmt)]
  }

  /** `generateBreakdown`. */
  function BreakdownText(files: seq<FileData>, fmt: nat -> string): string
  {
    Join(["File types:"] + RowLines(Rows(files), fmt), "\n")
  }
}
