/** Translation of ignore-file rules into glob excludes, and normalisation of
    glob lists (lib/utils/patternUtils.ts, class PatternUtils). */
module PatternUtils {
  import opened Text
  import opened Wrappers
  import opened Seqs

  // ---------------------------------------------------------------------------
  // One ignore-file rule
  // ---------------------------------------------------------------------------

  // The globs one (trimmed, non-comment) ignore-file rule stands for.
  function Convert(pattern: string): (r: seq<string>)
    ensures 1 <= |r| <= 3
  {
    var isRootRelative := StartsWith(pattern, "/");
    var p := if isRootRelative then pattern[1..] else pattern;
    var isDirectory := EndsWith(p, "/");
    var name := if isDirectory then p[..|p| - 1] else p;
    if isDirectory then
      [name + "/**"] + (if isRootRelative then [] else ["**/" + name + "/**", "**/" + name])
    else if '/' in name then
      [name] + (if isRootRelative then [] else ["**/" + name])
    else if '*' in name then
      [name, "**/" + name]
    else
      ["**/" + name, "**/" + name + "/**", name]
  }

  // `convertGitignorePattern`: strips a leading and then a trailing `/`, and
  // pushes the globs of the rule's kind.
  method ConvertGitignorePattern(pattern: string) returns (patterns: seq<string>)
    ensures patterns == Convert(pattern)
    ensures 1 <= |patterns| <= 3
  {
    patterns := [];
    var p := pattern;
    var isRootRelative := StartsWith(p, "/");
    if isRootRelative {
      p := p[1..];
    }
    var isDirectory := EndsWith(p, "/");
    if isDirectory {
      p := p[..|p| - 1];
    }
    if isDirectory {
      patterns := patterns + [p + "/**"];
      if !isRootRelative {
        patterns := patterns + ["**/" + p + "/**"];
        patterns := patterns + ["**/" + p];
      }
    } else if '/' in p {
      patterns := patterns + [p];
      if !isRootRelative {
        patterns := patterns + ["**/" + p];
      }
    } else if '*' in p {
      patterns := patterns + [p];
      patterns := patterns + ["**/" + p];
    } else {
      patterns := patterns + ["**/" + p];
      patterns := patterns + ["**/" + p + "/**"];
      patterns := patterns + [p];
    }
  }

  // A directory rule (trailing slash) always yields `name/**`; it adds
  // `**/name/**` and `**/name` only when the rule is not root-relative.
  lemma DirectoryRule(name: string)
    requires name != [] && name[0] != '/'
    ensures Convert(name + "/") == [name + "/**", "**/" + name + "/**", "**/" + name]
    ensures Convert("/" + name + "/") == [name + "/**"]
  {
    assert ("/" + name + "/")[1..] == name + "/";
    assert (name + "/")[..|name + "/"| - 1] == name;
  }

  // A path-shaped rule yields itself, plus `**/name` unless it is root-relative.
  lemma PathRule(name: string)
    requires name != [] && name[0] != '/' && !EndsWith(name, "/") && '/' in name
    ensures Convert(name) == [name, "**/" + name]
    ensures Convert("/" + name) == [name]
  {
    assert ("/" + name)[1..] == name;
  }

  // A bare wildcard name yields `[p, **/p]`; a leading `/` changes nothing.
  lemma WildcardRule(name: string)
    requires '/' !in name && '*' in name
    ensures Convert(name) == [name, "**/" + name]
    ensures Convert("/" + name) == Convert(name)
  {
    assert ("/" + name)[1..] == name;
  }

  // A plain bare name yields `[**/p, **/p/**, p]`; a leading `/` changes nothing.
  lemma PlainRule(name: string)
    requires '/' !in name && '*' !in name
    ensures Convert(name) == ["**/" + name, "**/" + name + "/**", name]
    ensures Convert("/" + name) == Convert(name)
  {
    assert ("/" + name)[1..] == name;
    assert !EndsWith(name, "/") by {
      if name != [] {
        assert name[|name| - 1] in name;
      }
    }
  }

  // ---------------------------------------------------------------------------
  // An ignore file
  // ---------------------------------------------------------------------------

  /** Blank lines, comments and negations are dropped after trimming. */
  predicate Skipped(trimmed: string)
  {
    trimmed == "" || StartsWith(trimmed, "#") || StartsWith(trimmed, "!")
  }

  /** What one line of the ignore file contributes. */
  function LineRules(line: string): (r: seq<string>)
    ensures r == [] <==> Skipped(Trim(line))
    ensures |r| <= 3
  {
    var trimmed := Trim(line);
    if Skipped(trimmed) then [] else Convert(trimmed)
  }

  /** The contributions of all lines, in line order. */
  function Rules(lines: seq<string>): seq<string>
  {
    FlatMap(LineRules, lines)
  }

  /** The rules of consecutive blocks of lines are concatenated in order. */
  lemma RulesAppend(a: seq<string>, b: seq<string>)
    ensures Rules(a + b) == Rules(a) + Rules(b)
  {
    FlatMapAppend(LineRules, a, b);
  }

  /** Lines that are blank, comments or negations contribute nothing at all. */
  lemma SkippedLinesContributeNothing(lines: seq<string>)
    requires forall i :: 0 <= i < |lines| ==> Skipped(Trim(lines[i]))
    ensures Rules(lines) == []
  {
    FlatMapEmpty(LineRules, lines);
  }

  lemma RulesSnoc(lines: seq<string>, i: nat)
    requires i < |lines|
    ensures Rules(lines[..i + 1]) == Rules(lines[..i]) + LineRules(lines[i])
  {
    assert lines[..i + 1] == lines[..i] + [lines[i]];
    FlatMapSnoc(LineRules, lines[..i], lines[i]);
  }

  /** `parseGitignorePatterns`: the rules of every line of `content`. */
  method ParseGitignorePatterns(content: string) returns (patterns: seq<string>)
    ensures patterns == Rules(Split(content, {'\n'}))
  {
    var lines := Split(content, {'\n'});
    patterns := [];
    for i := 0 to |lines|
      invariant patterns == Rules(lines[..i])
    {
      RulesSnoc(lines, i);
      var trimmed := Trim(lines[i]);
      if trimmed != "" && !StartsWith(trimmed, "#") && !StartsWith(trimmed, "!") {
        var converted := ConvertGitignorePattern(trimmed);
        assert converted == LineRules(lines[i]);
        patterns := patterns + converted;
      } else {
        assert LineRules(lines[i]) == [];
      }
    }
    assert lines[..|lines|] == lines;
  }

  // ---------------------------------------------------------------------------
  // Normalisation
  // ---------------------------------------------------------------------------

  /** One pattern after trimming and removing one leading `./`, then one leading `/`:
      the trimmed pattern is the result behind at most one `./` and then at most one `/`. */
  function NormalizeOne(pattern: string): (r: string)
    ensures |r| <= |Trim(pattern)| <= |r| + 3
    ensures EndsWith(Trim(pattern), r)
    ensures var t := Trim(pattern); t == r || t == "./" + r || t == "/" + r || t == ".//" + r
  {
    StripLeadingShape(Trim(pattern));
    StripLeading(Trim(pattern))
  }

  /** The two removals of `normalizePatterns` on an already trimmed pattern. */
  function StripLeading(p: string): string
  {
    var p1 := if StartsWith(p, "./") then p[2..] else p;
    if StartsWith(p1, "/") && !StartsWith(p1, "**") then p1[1..] else p1
  }

  /** At most one `./` and then at most one `/` are removed. */
  lemma StripLeadingShape(p: string)
    ensures var r := StripLeading(p); p == r || p == "./" + r || p == "/" + r || p == ".//" + r
  {
    var p1 := if StartsWith(p, "./") then p[2..] else p;
    if StartsWith(p, "./") {
      assert p == "./" + p1;
    }
    if StartsWith(p1, "/") && !StartsWith(p1, "**") {
      assert p1 == "/" + p1[1..];
    }
  }

  predicate NoDuplicates(s: seq<string>)
  {
    forall i, j :: 0 <= i < j < |s| ==> s[i] != s[j]
  }

  /** The contents of the insertion-ordered set `normalizePatterns` fills. */
  function Normalized(ps: seq<string>): (r: seq<string>)
    ensures NoDuplicates(r)
  {
    if ps == [] then []
    else
      var prev := Normalized(ps[..|ps| - 1]);
      var p := ps[|ps| - 1];
      if Trim(p) == "" || NormalizeOne(p) in prev then prev else prev + [NormalizeOne(p)]
  }

  /** The normal form of a non-blank pattern; nothing for a blank one. */
  function NormalFormOf(p: string): seq<string>
  {
    if Trim(p) == "" then [] else [NormalizeOne(p)]
  }

  /** The normal forms of the non-blank inputs, in order, duplicates kept. */
  function NormalForms(ps: seq<string>): seq<string>
  {
    FlatMap(NormalFormOf, ps)
  }

  /** The output holds exactly the normal forms of the non-blank inputs. */
  lemma {:induction false} NormalizedMembers(ps: seq<string>, x: string)
    ensures x in Normalized(ps) <==> x in NormalForms(ps)
  {
    if ps != [] {
      var init, p := ps[..|ps| - 1], ps[|ps| - 1];
      assert ps == init + [p];
      NormalizedMembers(init, x);
      FlatMapSnoc(NormalFormOf, init, p);
    }
  }

  /** First-occurrence order: normalising more patterns only appends. */
  lemma {:induction false} NormalizedPrefix(ps: seq<string>, qs: seq<string>)
    ensures Normalized(ps) <= Normalized(ps + qs)
  {
    if qs == [] {
      assert ps + qs == ps;
    } else {
      NormalizedPrefix(ps, qs[..|qs| - 1]);
      assert (ps + qs)[..|ps + qs| - 1] == ps + qs[..|qs| - 1];
    }
  }

  /** The empty check happens before stripping, so `./` and `/` normalise to
      the empty string, which is kept. */
  lemma DotSlashKeptAsEmpty(p: string)
    requires p == "./" || p == "/"
    ensures Normalized([p]) == [""]
  {
    if p == "./" {
      DotSlashAlone();
    } else {
      SlashAlone();
    }
    SingleNormalized(p);
  }

  lemma DotSlashAlone()
    ensures Trim("./") != "" && NormalizeOne("./") == ""
  {
    var p := "./";
    UntrimmedNormalForm(p);
    assert p[..2] == "./" && p[2..] == "";
  }

  lemma SlashAlone()
    ensures Trim("/") != "" && NormalizeOne("/") == ""
  {
    SingleSlash("/");
  }

  lemma SingleSlash(p: string)
    requires |p| == 1 && p[0] == '/'
    ensures Trim(p) != "" && NormalizeOne(p) == ""
  {
    UntrimmedNormalForm(p);
    OtherFirstChar(p, "./");
    OtherFirstChar(p, "**");
    assert StartsWith(p, "/") by {
      assert p[..1] == [p[0]];
    }
    assert p[1..] == [];
  }

  /** A single non-blank pattern normalises to its normal form. */
  lemma SingleNormalized(p: string)
    requires Trim(p) != ""
    ensures Normalized([p]) == [NormalizeOne(p)]
  {
    assert [p][..0] == [];
  }

  /** `normalizePatterns`: a `Set` filled in input order, returned as an array. */
  method NormalizePatterns(patterns: seq<string>) returns (r: seq<string>)
    ensures r == Normalized(patterns)
  {
    var normalized: set<string> := {};
    r := [];
    for i := 0 to |patterns|
      invariant r == Normalized(patterns[..i])
      invariant forall x :: x in normalized <==> x in r
    {
      assert patterns[..i + 1][..i] == patterns[..i];
      var p := Trim(patterns[i]);
      if p != "" {
        if StartsWith(p, "./") {
          p := p[2..];
        }
        if StartsWith(p, "/") && !StartsWith(p, "**") {
          p := p[1..];
        }
        if p !in normalized {
          normalized := normalized + {p};
          r := r + [p];
        }
      }
    }
    assert patterns[..|patterns|] == patterns;
  }

  // ---------------------------------------------------------------------------
  // Merging and defaults
  // ---------------------------------------------------------------------------

  function GroupPatterns(group: Option<seq<string>>): seq<string>
  {
    match group
    case Some(g) => g
    case None => []
  }

  /** The defined groups concatenated in argument order (`undefined` is skipped). */
  function Defined(groups: seq<Option<seq<string>>>): seq<string>
  {
    FlatMap(GroupPatterns, groups)
  }

  /** An undefined group contributes nothing wherever it stands. */
  lemma UndefinedGroupSkipped(a: seq<Option<seq<string>>>, b: seq<Option<seq<string>>>)
    ensures Defined(a + [None] + b) == Defined(a + b)
  {
    FlatMapAppend(GroupPatterns, a + [None], b);
    FlatMapSnoc(GroupPatterns, a, None);
    FlatMapAppend(GroupPatterns, a, b);
  }

  /** `mergePatterns`. */
  method MergePatterns(patternGroups: seq<Option<seq<string>>>) returns (r: seq<string>)
    ensures r == Normalized(Defined(patternGroups))
  {
    var allPatterns: seq<string> := [];
    for i := 0 to |patternGroups|
      invariant allPatterns == Defined(patternGroups[..i])
    {
      assert patternGroups[..i + 1] == patternGroups[..i] + [patternGroups[i]];
      FlatMapSnoc(GroupPatterns, patternGroups[..i], patternGroups[i]);
      match patternGroups[i] {
        case Some(group) => allPatterns := allPatterns + group;
        case None =>
      }
    }
    assert patternGroups[..|patternGroups|] == patternGroups;
    r := NormalizePatterns(allPatterns);
  }

  const Defaults: seq<string> := [
    "node_modules",
    "node_modules/**",
    "**/node_modules",
    "**/node_modules/**",
    ".git",
    ".git/**",
    "**/.git",
    "**/.git/**",
    "codemerge.json",
    "codemerge.config.json"
  ]

  /** JavaScript truthiness of an optional string. */
  predicate Truthy(s: Option<string>)
  {
    s.Some? && s.value != ""
  }

  /** The list `addDefaultPatterns` normalises. */
  function Combined(patterns: seq<string>, outputPath: Option<string>): seq<string>
  {
    Defaults + patterns
    + (if Truthy(outputPath) then [outputPath.value, "**/" + outputPath.value] else [])
  }

  /** A pattern that normalisation leaves as it is. */
  predicate Clean(p: string)
  {
    && p != "" && !IsJsSpace(p[0]) && !IsJsSpace(p[|p| - 1])
    && p[0] != '/' && (|p| < 2 || p[0] != '.' || p[1] != '/')
  }

  lemma CleanIsNormal(p: string)
    requires Clean(p)
    ensures Trim(p) == p && NormalizeOne(p) == p
  {
    assert TrimStart(p) == p;
    assert TrimEnd(p) == p;
  }

  /** A leading `./` is removed from a clean pattern. */
  lemma DotSlashStripped(x: string)
    requires Clean(x)
    ensures NormalizeOne("./" + x) == x
  {
    TrimmedPrefix("./", x);
    var p := "./" + x;
    assert p[..2] == "./" && p[2..] == x;
    NoLeadingSlash(x);
  }

  /** A leading `/` is removed from a clean pattern. */
  lemma SlashStripped(x: string)
    requires Clean(x)
    ensures NormalizeOne("/" + x) == x
  {
    TrimmedPrefix("/", x);
    var p := "/" + x;
    assert p[..1] == "/" && p[1..] == x;
    OtherFirstChar(p, "./");
    OtherFirstChar(p, "**");
  }

  /** `.//` in front of a clean pattern loses both its `./` and the `/` after it. */
  lemma DotSlashSlashStripped(x: string)
    requires Clean(x)
    ensures NormalizeOne(".//" + x) == x
  {
    var y := "/" + x;
    assert ".//" + x == "./" + y;
    TrimmedPrefix(".//", x);
    var p := "./" + y;
    assert p[..2] == "./" && p[2..] == y;
    assert y[..1] == "/" && y[1..] == x;
    OtherFirstChar(y, "**");
  }

  /** A string does not start with a prefix whose first character differs from its own. */
  lemma OtherFirstChar(p: string, prefix: string)
    requires p != [] && prefix != [] && p[0] != prefix[0]
    ensures !StartsWith(p, prefix)
  {
    if |prefix| <= |p| {
      assert p[..|prefix|][0] == p[0];
    }
  }

  lemma NoLeadingSlash(x: string)
    requires Clean(x)
    ensures !StartsWith(x, "/")
  {
    assert x[0] != '/';
  }

  /** Behind a non-space prefix a clean pattern is left to the two removals. */
  lemma TrimmedPrefix(prefix: string, x: string)
    requires Clean(x) && prefix != [] && !IsJsSpace(prefix[0])
    ensures NormalizeOne(prefix + x) == StripLeading(prefix + x)
  {
    PaddedTrim(prefix, x);
  }

  /** A pattern with no white space at either end is not blank and only has
      its leading `./` and `/` removed. */
  lemma UntrimmedNormalForm(p: string)
    requires p != [] && !IsJsSpace(p[0]) && !IsJsSpace(p[|p| - 1])
    ensures Trim(p) != "" && NormalizeOne(p) == StripLeading(p)
  {
    assert TrimStart(p) == p;
    assert TrimEnd(p) == p;
  }

  /** A non-space prefix in front of a clean pattern is not trimmed away. */
  lemma PaddedTrim(prefix: string, x: string)
    requires Clean(x) && prefix != [] && !IsJsSpace(prefix[0])
    ensures Trim(prefix + x) == prefix + x
  {
    var p := prefix + x;
    assert p[0] == prefix[0];
    assert TrimStart(p) == p;
    assert p[|p| - 1] == x[|x| - 1];
    assert TrimEnd(p) == p;
  }

  /** Normalising distinct clean patterns gives them back unchanged. */
  lemma {:induction false} NormalizedClean(ps: seq<string>)
    requires forall i :: 0 <= i < |ps| ==> Clean(ps[i])
    requires NoDuplicates(ps)
    ensures Normalized(ps) == ps
  {
    if ps != [] {
      var init, p := ps[..|ps| - 1], ps[|ps| - 1];
      NormalizedClean(init);
      CleanIsNormal(p);
      LastSplit(ps);
    }
  }

  lemma DefaultsNormalized()
    ensures Normalized(Defaults) == Defaults
  {
    forall i | 0 <= i < |Defaults| ensures Clean(Defaults[i]) {
    }
    NormalizedClean(Defaults);
  }

  /** Whatever follows the defaults, normalisation keeps them first, unchanged. */
  lemma DefaultsFirst(rest: seq<string>)
    ensures |Normalized(Defaults + rest)| >= 10 && Normalized(Defaults + rest)[..10] == Defaults
  {
    DefaultsNormalized();
    NormalizedPrefix(Defaults, rest);
    PrefixSlice(Defaults, Normalized(Defaults + rest));
  }

  lemma PrefixSlice(d: seq<string>, s: seq<string>)
    requires d <= s
    ensures |d| <= |s| && s[..|d|] == d
  {
  }

  /** Appending a non-blank output path `o` and `**` + `/o` puts both normal forms in the result. */
  lemma OutputPathExcluded(prefix: seq<string>, o: string)
    requires Trim(o) != ""
    ensures NormalizeOne(o) in Normalized(prefix + [o, "**/" + o])
    ensures NormalizeOne("**/" + o) in Normalized(prefix + [o, "**/" + o])
  {
    TrimKeepsFirst("**/" + o);
    FlatMapAppend(NormalFormOf, prefix, [o, "**/" + o]);
    assert [o, "**/" + o] == ([] + [o]) + ["**/" + o];
    FlatMapSnoc(NormalFormOf, [o], "**/" + o);
    FlatMapSnoc(NormalFormOf, [], o);
    NormalizedMembers(prefix + [o, "**/" + o], NormalizeOne(o));
    NormalizedMembers(prefix + [o, "**/" + o], NormalizeOne("**/" + o));
  }

  /** `addDefaultPatterns`: the ten built-in excludes come first, and a non-empty
      output path is excluded both plainly and under any directory. */
  method AddDefaultPatterns(patterns: seq<string>, outputPath: Option<string>) returns (r: seq<string>)
    ensures r == Normalized(Combined(patterns, outputPath))
    ensures |r| >= 10 && r[..10] == Defaults
    ensures Truthy(outputPath) && Trim(outputPath.value) != ""
            ==> NormalizeOne(outputPath.value) in r && NormalizeOne("**/" + outputPath.value) in r
  {
    var combined := Defaults + patterns;
    if outputPath.Some? && outputPath.value != "" {
      combined := combined + [outputPath.value];
      combined := combined + ["**/" + outputPath.value];
    }
    assert combined == Combined(patterns, outputPath);
    r := NormalizePatterns(combined);
    assert combined == Defaults + combined[10..];
    DefaultsFirst(combined[10..]);
    if Truthy(outputPath) && Trim(outputPath.value) != "" {
      var o := outputPath.value;
      assert combined == (Defaults + patterns) + [o, "**/" + o];
      OutputPathExcluded(Defaults + patterns, o);
    }
  }
}
