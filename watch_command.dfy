/** lib/commands/watch.ts: the helpers of watch mode. `getProjectName` turns
    the output file name into the url segment the server answers on, and
    `performInitialMerge` runs a merge and refreshes the cache only when the
    merge succeeded. */
module WatchCommand {
  import opened Wrappers
  import opened Text
  import opened Types
  import opened MergeCache
  import CodeMerger
  import HttpServer

  /** The path without its trailing slashes (which `basename` ignores). */
  function DropTrailingSlashes(s: string): (r: string)
    ensures |r| <= |s| && r == s[..|r|]
    ensures r == [] || r[|r| - 1] != '/'
    ensures forall i :: |r| <= i < |s| ==> s[i] == '/'
  {
    if s != [] && s[|s| - 1] == '/' then DropTrailingSlashes(s[..|s| - 1]) else s
  }

  /** POSIX `path.basename`: the last `/`-separated name, trailing slashes ignored. */
  function Basename(path: string): (r: string)
    ensures NoSep(r, {'/'})
  {
    LastSegment(DropTrailingSlashes(path), {'/'})
  }

  /** `.replace(/\.[^/.]+$/, '')`: a final `.` followed by at least one
      character that is neither `/` nor `.` is cut off, once. */
  function StripExtension(name: string): (r: string)
    ensures |r| <= |name| && r == name[..|r|]
    ensures |r| < |name| ==> name[|r|] == '.' && |r| + 1 < |name|
                             && NoSep(name[|r| + 1..], {'.', '/'})
  {
    var ext := LastSegment(name, {'.'});
    if |ext| < |name| && ext != [] && NoSep(ext, {'/'}) then name[..|name| - |ext| - 1] else name
  }

  /** The characters `[a-zA-Z0-9-_]` keep; every other becomes `-`. */
  predicate Kept(c: char)
  {
    'a' <= c <= 'z' || 'A' <= c <= 'Z' || '0' <= c <= '9' || c == '-' || c == '_'
  }

  /** The characters a project name is made of: `[a-z0-9_-]`. */
  predicate NameChar(c: char)
  {
    'a' <= c <= 'z' || '0' <= c <= '9' || c == '-' || c == '_'
  }

  /** `.replace(/[^a-zA-Z0-9-_]/g, '-')`: character for character. */
  function Sanitize(s: string): (r: string)
    ensures |r| == |s|
    ensures forall i :: 0 <= i < |s| ==> r[i] == if Kept(s[i]) then s[i] else '-'
  {
    if s == [] then [] else [if Kept(s[0]) then s[0] else '-'] + Sanitize(s[1..])
  }

  /** `getProjectName`: basename, final extension removed, foreign characters
      replaced by `-`, lower-cased. */
  function GetProjectName(outputPath: string): (r: string)
    ensures |r| == |StripExtension(Basename(outputPath))|
    ensures forall i :: 0 <= i < |r| ==> NameChar(r[i])
  {
    Lower(Sanitize(StripExtension(Basename(outputPath))))
  }

  /** A project name is its own project name. */
  lemma GetProjectNameIdempotent(outputPath: string)
    ensures GetProjectName(GetProjectName(outputPath)) == GetProjectName(outputPath)
  {
    var r := GetProjectName(outputPath);
    NameIsOwnStem(r);
    NameCharsUnchanged(r);
  }

  /** A string of name characters has no directory and no extension to cut. */
  lemma NameIsOwnStem(r: string)
    requires forall i :: 0 <= i < |r| ==> NameChar(r[i])
    ensures StripExtension(Basename(r)) == r
  {
    assert NoSep(r, {'/'});
    BasenameOfName(r);
    assert NoSep(r, {'.'});
    LastSegmentNoSep(r, {'.'});
  }

  lemma BasenameOfName(name: string)
    requires NoSep(name, {'/'})
    ensures Basename(name) == name
  {
    assert DropTrailingSlashes(name) == name;
    LastSegmentNoSep(name, {'/'});
  }

  lemma BasenameAfterDir(dir: string, name: string)
    requires NoSep(name, {'/'}) && name != []
    ensures Basename(dir + "/" + name) == name
  {
    var path := dir + "/" + name;
    assert path[|path| - 1] == name[|name| - 1];
    assert DropTrailingSlashes(path) == path;
    assert path == dir + ['/'] + name;
    LastSegmentAfterSep(dir, '/', name, {'/'});
  }

  /** Trailing slashes do not change the basename: `dir/name///` gives `name`. */
  lemma {:induction false} BasenameIgnoresTrailingSlashes(dir: string, name: string, n: nat)
    requires NoSep(name, {'/'}) && name != []
    ensures Basename(dir + "/" + name + Repeat('/', n)) == name
  {
    DropSlashRun(dir + "/" + name, n);
    BasenameAfterDir(dir, name);
  }

  lemma {:induction false} DropSlashRun(p: string, n: nat)
    requires p != [] && p[|p| - 1] != '/'
    ensures DropTrailingSlashes(p + Repeat('/', n)) == p
  {
    if n == 0 {
      assert p + Repeat('/', n) == p;
    } else {
      var s := p + Repeat('/', n);
      assert s[|s| - 1] == '/';
      assert s[..|s| - 1] == p + Repeat('/', n - 1) by {
        RepeatSnoc(n - 1);
      }
      DropSlashRun(p, n - 1);
    }
  }

  lemma RepeatSnoc(n: nat)
    ensures Repeat('/', n + 1) == Repeat('/', n) + ['/']
  {
    assert forall i :: 0 <= i < n + 1 ==> Repeat('/', n + 1)[i] == (Repeat('/', n) + ['/'])[i];
  }

  lemma StripFinalExtension(stem: string, ext: string)
    requires ext != [] && NoSep(ext, {'.', '/'})
    ensures StripExtension(stem + "." + ext) == stem
  {
    assert NoSep(ext, {'.'}) && NoSep(ext, {'/'});
    assert stem + "." + ext == stem + ['.'] + ext;
    LastSegmentAfterSep(stem, '.', ext, {'.'});
  }

  lemma NameCharsUnchanged(s: string)
    requires forall i :: 0 <= i < |s| ==> NameChar(s[i])
    ensures Sanitize(s) == s
    ensures Lower(s) == s
  {
    forall i | 0 <= i < |s| ensures Sanitize(s)[i] == s[i] && Lower(s)[i] == s[i] {
      assert Kept(s[i]) && !('A' <= s[i] <= 'Z');
    }
  }

  /** Sanitising works character by character, so it distributes over `+`. */
  lemma SanitizeAppend(x: string, y: string)
    ensures Sanitize(x + y) == Sanitize(x) + Sanitize(y)
  {
    forall i | 0 <= i < |x + y| ensures Sanitize(x + y)[i] == (Sanitize(x) + Sanitize(y))[i] {
      if i < |x| {
        assert (x + y)[i] == x[i];
      } else {
        assert (x + y)[i] == y[i - |x|];
      }
    }
  }

  /** A lower-case name made of `[a-z0-9_-]` with one extension, in any
      directory, serves under that name: `dist/merged-output.txt` gives
      `merged-output`. */
  lemma PlainProjectName(dir: string, stem: string, ext: string)
    requires forall i :: 0 <= i < |stem| ==> NameChar(stem[i])
    requires ext != [] && NoSep(ext, {'.', '/'})
    ensures GetProjectName(dir + "/" + stem + "." + ext) == stem
  {
    var name := stem + "." + ext;
    assert dir + "/" + stem + "." + ext == dir + "/" + name;
    assert NoSep(name, {'/'}) by {
      forall j | 0 <= j < |name| ensures name[j] != '/' {
        if j < |stem| {
          assert name[j] == stem[j];
        } else if j > |stem| {
          assert name[j] == ext[j - |stem| - 1];
        }
      }
    }
    BasenameAfterDir(dir, name);
    StripFinalExtension(stem, ext);
    NameCharsUnchanged(stem);
  }

  /** Only the last extension goes; the earlier dots become dashes:
      `a.b.c` gives `a-b` for names `a`, `b`, `c` made of `[a-z0-9_-]`. */
  lemma InnerDotsBecomeDashes(a: string, b: string, c: string)
    requires forall i :: 0 <= i < |a| ==> NameChar(a[i])
    requires forall i :: 0 <= i < |b| ==> NameChar(b[i])
    requires c != [] && forall i :: 0 <= i < |c| ==> NameChar(c[i])
    ensures GetProjectName(a + "." + b + "." + c) == a + "-" + b
  {
    var m := a + "." + b;
    assert NoSep(m + "." + c, {'/'});
    BasenameOfName(m + "." + c);
    assert NoSep(c, {'.', '/'});
    StripFinalExtension(m, c);
    DotBecomesDash(a, b);
  }

  /** Sanitising `a.b` for names `a` and `b` gives `a-b`, which lower-casing keeps. */
  lemma DotBecomesDash(a: string, b: string)
    requires forall i :: 0 <= i < |a| ==> NameChar(a[i])
    requires forall i :: 0 <= i < |b| ==> NameChar(b[i])
    ensures Lower(Sanitize(a + "." + b)) == a + "-" + b
  {
    NameCharsUnchanged(a);
    NameCharsUnchanged(b);
    assert Sanitize(a + "." + b) == a + "-" + b by {
      assert Sanitize(".") == "-";
      SanitizeAppend(a, ".");
      SanitizeAppend(a + ".", b);
    }
    assert Lower(a + "-" + b) == a + "-" + b by {
      assert Lower("-") == "-";
      LowerConcat(a, "-");
      LowerConcat(a + "-", b);
    }
  }

  /** A name that is only an extension, such as `.txt`, leaves nothing. */
  lemma BareExtensionIsEmpty(ext: string)
    requires ext != [] && NoSep(ext, {'.', '/'})
    ensures GetProjectName("." + ext) == ""
  {
    assert NoSep("." + ext, {'/'});
    BasenameOfName("." + ext);
    StripFinalExtension("", ext);
    assert "" + "." + ext == "." + ext;
  }

  /** An output file whose project name is `health` (`health.txt` in any
      directory, by PlainProjectName) makes the project's url `/health`, which
      then answers with the merged text instead of the health report. */
  lemma HealthNamedOutputShadowsHealth(outputPath: string, content: Option<string>)
    requires GetProjectName(outputPath) == "health"
    ensures HttpServer.Route(Some("/health"), GetProjectName(outputPath), content)
         == HttpServer.MergeEndpoint(content)
  {
    HttpServer.ProjectNamedHealth(content);
  }

  /** An output file called `.txt` (only an extension) gives the empty project
      name, and the merge endpoint takes over `/`. */
  lemma BareExtensionTakesRoot(ext: string, content: Option<string>)
    requires ext != [] && NoSep(ext, {'.', '/'})
    ensures HttpServer.Route(Some("/"), GetProjectName("." + ext), content) == HttpServer.MergeEndpoint(content)
  {
    BareExtensionIsEmpty(ext);
    HttpServer.EmptyProjectNameTakesRoot(content);
  }

  /** `performInitialMerge`: run the merge; on success read the output file
      back (`readBack`, `None` when that read throws, which rejects the call)
      and store it. A failed merge leaves the cache untouched. */
  method PerformInitialMerge(options: MergeOptions, cache: MergeCache, fs: CodeMerger.FileSystem,
                             timestamp: string, fmt: nat -> string, pathLeq: (string, string) -> bool,
                             readBack: Option<string>, now: int)
    returns (result: MergeResult, rejected: bool)
    modifies cache
    ensures result == CodeMerger.ExecuteWith(fs, options, pathLeq,
                        (files: seq<FileData>) => CodeMerger.MergedText(options.inputPath, files, timestamp, fmt)).0
    ensures rejected <==> result.success && readBack == None
    ensures result.success && readBack.Some? ==> cache.content == readBack && cache.lastUpdate == Some(now)
    ensures !result.success || readBack == None ==> unchanged(cache)
  {
    var merger := new CodeMerger.CodeMerger(options);
    var written;
    result, written := merger.Execute(fs, timestamp, fmt, pathLeq);
    if !result.success {
      return result, false;
    }
    if readBack == None {
      return result, true;
    }
    cache.Set(readBack.value, now);
    rejected := false;
  }
}
