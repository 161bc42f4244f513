/** The text-file filter of lib/utils/fileUtils.ts (class FileUtils): a path is
    treated as binary when its lower-cased form ends with a listed extension.
    Reading, writing and existence checks are foreign calls and appear as
    oracles in the merger model. */
module FileUtils {
  import opened Text

  /** `BINARY_EXTENSIONS`, in source order. */
  const BinaryExtensions: seq<string> := [
    ".png", ".jpg", ".jpeg", ".gif", ".ico", ".bmp", ".svg",
    ".pdf", ".zip", ".tar", ".gz", ".rar", ".7z",
    ".exe", ".dll", ".so", ".dylib",
    ".mp3", ".mp4", ".avi", ".mov", ".wmv",
    ".ttf", ".woff", ".woff2", ".eot"
  ]

  predicate Listed(e: string)
  {
    e in BinaryExtensions
  }

  /** `exts.some(ext => s.endsWith(ext))`. */
  function SomeEndsWith(s: string, exts: seq<string>): (r: bool)
    ensures r <==> exists i :: 0 <= i < |exts| && EndsWith(s, exts[i])
  {
    if exts == [] then false
    else EndsWith(s, exts[0]) || SomeEndsWith(s, exts[1..])
  }

  /** `isTextFile`: false exactly when the lower-cased path ends with one of the
      binary extensions. */
  function IsTextFile(filePath: string): (r: bool)
    ensures !r <==> exists i :: 0 <= i < |BinaryExtensions| && EndsWith(Lower(filePath), BinaryExtensions[i])
  {
    !SomeEndsWith(Lower(filePath), BinaryExtensions)
  }

  /** Each extension is a dot followed by lower-case letters and digits: one
      `.`, at the front, and no `/`. */
  predicate ExtensionShape(e: string)
  {
    |e| >= 2 && e[0] == '.'
    && forall j :: 1 <= j < |e| ==> ('a' <= e[j] <= 'z' || '0' <= e[j] <= '9')
  }

  lemma ExtensionShapeAt(i: nat)
    requires i < |BinaryExtensions|
    ensures ExtensionShape(BinaryExtensions[i])
  {
  }

  /** A suffix test on a concatenation looks only at the tail. */
  lemma EndsWithConcat(a: string, b: string, e: string)
    ensures |e| <= |b| ==> (EndsWith(a + b, e) <==> EndsWith(b, e))
    ensures |e| > |b| && EndsWith(a + b, e) ==> EndsWith(e, b)
  {
    if |e| <= |b| {
      assert (a + b)[|a + b| - |e|..] == b[|b| - |e|..];
    } else if EndsWith(a + b, e) {
      assert e[|e| - |b|..] == (a + b)[|a + b| - |b|..] == b;
    }
  }

  /** Lower-casing is idempotent. */
  lemma LowerIdempotent(s: string)
    ensures Lower(Lower(s)) == Lower(s)
  {
  }

  /** The verdict is case-insensitive. */
  lemma CaseInsensitive(p: string)
    ensures IsTextFile(p) == IsTextFile(Lower(p))
  {
    LowerIdempotent(p);
  }

  /** Any path ending in a listed extension, in any letter case, is binary:
      `x.tar.gz` through `.gz`, and a file named exactly `.png`. */
  lemma ListedExtensionIsBinary(p: string, ext: string)
    requires Listed(Lower(ext)) && EndsWith(p, ext)
    ensures !IsTextFile(p)
  {
    LowerEndsWith(p, ext);
    var i :| 0 <= i < |BinaryExtensions| && BinaryExtensions[i] == Lower(ext);
  }

  /** A path ending in a single extension `l` other than `e` does not end with `e`. */
  lemma OtherExtension(s: string, l: string, e: string)
    requires ExtensionShape(e) && e != l && EndsWith(s, l)
    requires SingleExtension(l)
    ensures !EndsWith(s, e)
  {
    var m := s[..|s| - |l|];
    assert s == m + l;
    EndsWithConcat(m, l, e);
    if |e| < |l| {
      assert l[|l| - |e|] != e[0];
    } else if |e| > |l| {
      assert (m + l)[|m + l| - |l|] == '.';
      assert e[|e| - |l|] != '.';
    }
  }

  /** An extension: a `.` followed by characters other than `.`. */
  predicate SingleExtension(ext: string)
  {
    |ext| >= 1 && ext[0] == '.' && forall j :: 1 <= j < |ext| ==> ext[j] != '.'
  }

  lemma LowerSingleExtension(ext: string)
    requires SingleExtension(ext)
    ensures SingleExtension(Lower(ext))
  {
  }

  /** A path whose lower-cased form ends in an unlisted single extension is text. */
  lemma UnlistedSuffixIsText(p: string, l: string)
    requires SingleExtension(l) && !Listed(l) && EndsWith(Lower(p), l)
    ensures IsTextFile(p)
  {
    forall i | 0 <= i < |BinaryExtensions|
      ensures !EndsWith(Lower(p), BinaryExtensions[i])
    {
      ExtensionShapeAt(i);
      OtherExtension(Lower(p), l, BinaryExtensions[i]);
    }
  }

  /** A path ending in any other single extension (`.ts`, `.json`, `.md`, ...) is text. */
  lemma UnlistedExtensionIsText(p: string, ext: string)
    requires SingleExtension(ext) && !Listed(Lower(ext)) && EndsWith(p, ext)
    ensures IsTextFile(p)
  {
    LowerSingleExtension(ext);
    LowerEndsWith(p, ext);
    UnlistedSuffixIsText(p, Lower(ext));
  }

  /** An extension never spans a `/`. */
  lemma NoSlashInExtension(a: string, n: string, e: string)
    requires ExtensionShape(e) && a != [] && a[|a| - 1] == '/'
    ensures EndsWith(a + n, e) <==> EndsWith(n, e)
  {
    EndsWithConcat(a, n, e);
    if |e| > |n| {
      assert (a + n)[|a + n| - |n| - 1] == '/';
      assert e[|e| - |n| - 1] != '/';
    }
  }

  /** Only the file name matters: a directory prefix never changes the verdict. */
  lemma DirectoryPrefixIrrelevant(dir: string, name: string)
    ensures IsTextFile(dir + "/" + name) == IsTextFile(name)
  {
    LowerConcat(dir + "/", name);
    LowerConcat(dir, "/");
    var a := Lower(dir + "/");
    assert a[|a| - 1] == '/';
    forall i | 0 <= i < |BinaryExtensions|
      ensures EndsWith(a + Lower(name), BinaryExtensions[i]) <==> EndsWith(Lower(name), BinaryExtensions[i])
    {
      ExtensionShapeAt(i);
      NoSlashInExtension(a, Lower(name), BinaryExtensions[i]);
    }
  }
}
