/** String helpers with the semantics of the JavaScript string methods the
    merge pipeline uses. A `char` stands for one UTF-16 code unit; text outside
    the Basic Multilingual Plane, whose characters JavaScript stores as two
    code units, is not modelled. */
module Text {

  function StartsWith(s: string, prefix: string): bool
  {
    |prefix| <= |s| && s[..|prefix|] == prefix
  }

  function EndsWith(s: string, suffix: string): bool
  {
    |suffix| <= |s| && s[|s| - |suffix|..] == suffix
  }

  /** `c.repeat(n)` for a one-character string. */
  function Repeat(c: char, n: nat): (r: string)
    ensures |r| == n
    ensures forall i :: 0 <= i < n ==> r[i] == c
  {
    if n == 0 then [] else [c] + Repeat(c, n - 1)
  }

  /** `s.padStart(width, ' ')`. */
  function PadStart(s: string, width: nat): (r: string)
    ensures |r| == if |s| < width then width else |s|
    ensures EndsWith(r, s)
  {
    if |s| < width then Repeat(' ', width - |s|) + s else s
  }

  /** The code units `String.prototype.trim` removes: WhiteSpace and LineTerminator. */
  predicate IsJsSpace(c: char)
  {
    c == ' ' || c == '\t' || c == '\n' || c == '\r' || c == '\U{000B}' || c == '\U{000C}'
    || c == '\U{00A0}' || c == '\U{1680}' || ('\U{2000}' <= c <= '\U{200A}')
    || c == '\U{2028}' || c == '\U{2029}' || c == '\U{202F}' || c == '\U{205F}'
    || c == '\U{3000}' || c == '\U{FEFF}'
  }

  function TrimStart(s: string): (r: string)
    ensures |r| <= |s| && r == s[|s| - |r|..]
    ensures r == [] || !IsJsSpace(r[0])
  {
    if s != [] && IsJsSpace(s[0]) then TrimStart(s[1..]) else s
  }

  function TrimEnd(s: string): (r: string)
    ensures |r| <= |s| && r == s[..|r|]
    ensures r == [] || !IsJsSpace(r[|r| - 1])
  {
    if s != [] && IsJsSpace(s[|s| - 1]) then TrimEnd(s[..|s| - 1]) else s
  }

  /** `s.trim()`: the result is a slice of `s` with no white space at either end. */
  function Trim(s: string): (r: string)
    ensures |r| <= |s|
    ensures r == [] || (!IsJsSpace(r[0]) && !IsJsSpace(r[|r| - 1]))
  {
    TrimEnd(TrimStart(s))
  }

  /** A string that starts with a non-space character does not trim to nothing. */
  lemma {:induction false} TrimKeepsFirst(s: string)
    requires s != [] && !IsJsSpace(s[0])
    ensures Trim(s) != []
  {
    assert TrimStart(s) == s;
    TrimEndKeepsFirst(s);
  }

  lemma {:induction false} TrimEndKeepsFirst(s: string)
    requires s != [] && !IsJsSpace(s[0])
    ensures TrimEnd(s) != []
  {
    if |s| > 1 && IsJsSpace(s[|s| - 1]) {
      TrimEndKeepsFirst(s[..|s| - 1]);
    }
  }

  /** ASCII `toLowerCase`. */
  function LowerChar(c: char): char
  {
    if 'A' <= c <= 'Z' then (c as int - 'A' as int + 'a' as int) as char else c
  }

  function Lower(s: string): (r: string)
    ensures |r| == |s|
    ensures forall i :: 0 <= i < |s| ==> r[i] == LowerChar(s[i])
  {
    if s == [] then [] else [LowerChar(s[0])] + Lower(s[1..])
  }

  lemma LowerConcat(a: string, b: string)
    ensures Lower(a + b) == Lower(a) + Lower(b)
  {
    assert forall i :: 0 <= i < |a + b| ==> Lower(a + b)[i] == (Lower(a) + Lower(b))[i];
  }

  /** Lower-casing keeps suffixes. */
  lemma LowerEndsWith(s: string, t: string)
    requires EndsWith(s, t)
    ensures EndsWith(Lower(s), Lower(t))
  {
    assert Lower(s)[|s| - |t|..] == Lower(s[|s| - |t|..]);
  }

  /** Number of occurrences of separator characters in `s`. */
  function Count(s: string, seps: set<char>): nat
  {
    if s == [] then 0 else (if s[0] in seps then 1 else 0) + Count(s[1..], seps)
  }

  lemma {:induction false} CountAppend(a: string, b: string, seps: set<char>)
    ensures Count(a + b, seps) == Count(a, seps) + Count(b, seps)
  {
    if a == [] {
      assert a + b == b;
    } else {
      CountAppend(a[1..], b, seps);
      assert (a + b)[1..] == a[1..] + b;
    }
  }

  lemma {:induction false} CountNoSep(s: string, seps: set<char>)
    requires forall j :: 0 <= j < |s| ==> s[j] !in seps
    ensures Count(s, seps) == 0
  {
    if s != [] {
      CountNoSep(s[1..], seps);
    }
  }

  /** `s.split(sep)` where `sep` matches any single character of `seps`
      (a one-character string or a one-character class such as `/[/\\]/`). */
  function Split(s: string, seps: set<char>): (r: seq<string>)
    ensures |r| == Count(s, seps) + 1
    ensures forall k :: 0 <= k < |r| ==> forall j :: 0 <= j < |r[k]| ==> r[k][j] !in seps
  {
    if s == [] then [""]
    else if s[0] in seps then [""] + Split(s[1..], seps)
    else
      var rest := Split(s[1..], seps);
      [[s[0]] + rest[0]] + rest[1..]
  }

  /** `parts.join(sep)`. */
  function Join(parts: seq<string>, sep: string): string
  {
    if |parts| == 0 then ""
    else if |parts| == 1 then parts[0]
    else parts[0] + sep + Join(parts[1..], sep)
  }

  lemma {:induction false} JoinCons(p: string, parts: seq<string>, sep: string)
    requires parts != []
    ensures Join([p] + parts, sep) == p + sep + Join(parts, sep)
  {
    assert ([p] + parts)[1..] == parts;
  }

  lemma {:induction false} JoinSnoc(parts: seq<string>, p: string, sep: string)
    requires parts != []
    ensures Join(parts + [p], sep) == Join(parts, sep) + sep + p
  {
    if |parts| == 1 {
      assert (parts + [p])[1..] == [p];
    } else {
      JoinSnoc(parts[1..], p, sep);
      assert (parts + [p])[1..] == parts[1..] + [p];
    }
  }

  lemma {:induction false} JoinAppend(a: seq<string>, b: seq<string>, sep: string)
    requires a != [] && b != []
    ensures Join(a + b, sep) == Join(a, sep) + sep + Join(b, sep)
  {
    if |a| == 1 {
      assert a + b == [a[0]] + b;
      JoinCons(a[0], b, sep);
    } else {
      JoinAppend(a[1..], b, sep);
      assert a + b == [a[0]] + (a[1..] + b);
      JoinCons(a[0], a[1..] + b, sep);
      JoinCons(a[0], a[1..], sep);
      assert [a[0]] + a[1..] == a;
    }
  }

  /** The separators inside all the parts. */
  function CountAll(parts: seq<string>, seps: set<char>): nat
  {
    if parts == [] then 0 else Count(parts[0], seps) + CountAll(parts[1..], seps)
  }

  /** Joining `n` parts adds `n - 1` separators to those inside the parts. */
  lemma {:induction false} CountJoin(parts: seq<string>, c: char)
    requires parts != []
    ensures Count(Join(parts, [c]), {c}) == |parts| - 1 + CountAll(parts, {c})
  {
    if |parts| == 1 {
      assert parts[1..] == [];
    } else {
      CountJoin(parts[1..], c);
      CountAppend(parts[0], [c], {c});
      CountAppend(parts[0] + [c], Join(parts[1..], [c]), {c});
    }
  }

  predicate NoSep(s: string, seps: set<char>)
  {
    forall j :: 0 <= j < |s| ==> s[j] !in seps
  }

  lemma NoSepAppend(a: string, b: string, seps: set<char>)
    requires NoSep(a, seps) && NoSep(b, seps)
    ensures NoSep(a + b, seps)
  {
    forall j | 0 <= j < |a + b| ensures (a + b)[j] !in seps {
      if j >= |a| {
        assert (a + b)[j] == b[j - |a|];
      }
    }
  }

  /** Splitting a string that holds no separator gives it back whole. */
  lemma {:induction false} SplitNoSep(s: string, seps: set<char>)
    requires NoSep(s, seps)
    ensures Split(s, seps) == [s]
  {
    if s != [] {
      SplitNoSep(s[1..], seps);
      assert [s[0]] + s[1..] == s;
    }
  }

  lemma {:induction false} SplitAppend(a: string, c: char, b: string, seps: set<char>)
    requires NoSep(a, seps) && c in seps
    ensures Split(a + [c] + b, seps) == [a] + Split(b, seps)
  {
    if a == [] {
      assert a + [c] + b == [c] + b;
      assert ([c] + b)[1..] == b;
    } else {
      SplitAppend(a[1..], c, b, seps);
      var s := a + [c] + b;
      assert s[0] == a[0] && s[1..] == a[1..] + [c] + b;
      assert [a[0]] + a[1..] == a;
    }
  }

  /** Split is a left inverse of Join on parts free of the (one-character) separator. */
  lemma {:induction false} SplitJoin(parts: seq<string>, c: char)
    requires |parts| >= 1
    requires forall k :: 0 <= k < |parts| ==> NoSep(parts[k], {c})
    ensures Split(Join(parts, [c]), {c}) == parts
  {
    if |parts| == 1 {
      SplitNoSep(parts[0], {c});
    } else {
      SplitJoin(parts[1..], c);
      SplitAppend(parts[0], c, Join(parts[1..], [c]), {c});
      assert [parts[0]] + parts[1..] == parts;
    }
  }

  /** The last piece of `s.split(sep)` (`.pop()`): the text after the final separator. */
  function LastSegment(s: string, seps: set<char>): (r: string)
    ensures NoSep(r, seps)
    ensures EndsWith(s, r)
    ensures |r| < |s| ==> s[|s| - |r| - 1] in seps
  {
    if s == [] then []
    else if s[|s| - 1] in seps then []
    else LastSegment(s[..|s| - 1], seps) + [s[|s| - 1]]
  }

  /** When the first `k` parts hold no separator, splitting the joined string
      gives those parts back as its first `k` pieces. */
  lemma {:induction false} SplitJoinPrefix(parts: seq<string>, k: nat, c: char)
    requires k < |parts|
    requires forall i :: 0 <= i < k ==> NoSep(parts[i], {c})
    ensures |Split(Join(parts, [c]), {c})| >= k
    ensures Split(Join(parts, [c]), {c})[..k] == parts[..k]
  {
    if k > 0 {
      var tail := parts[1..];
      TailNoSep(parts, k, c);
      SplitJoinPrefix(tail, k - 1, c);
      var rest := Split(Join(tail, [c]), {c});
      SplitJoinCons(parts, c);
      TakeCons(parts[0], rest, k);
      TakeCons(parts[0], tail, k);
      assert [parts[0]] + tail == parts;
    }
  }

  lemma TailNoSep(parts: seq<string>, k: nat, c: char)
    requires 1 <= k <= |parts|
    requires forall i :: 0 <= i < k ==> NoSep(parts[i], {c})
    ensures forall i :: 0 <= i < k - 1 ==> NoSep(parts[1..][i], {c})
  {
    forall i | 0 <= i < k - 1 ensures NoSep(parts[1..][i], {c}) {
      assert parts[1..][i] == parts[i + 1];
    }
  }

  /** Splitting a join whose first part holds no separator gives that part,
      then the split of the join of the rest. */
  lemma SplitJoinCons(parts: seq<string>, c: char)
    requires |parts| >= 2 && NoSep(parts[0], {c})
    ensures Split(Join(parts, [c]), {c}) == [parts[0]] + Split(Join(parts[1..], [c]), {c})
  {
    assert Join(parts, [c]) == parts[0] + [c] + Join(parts[1..], [c]);
    SplitAppend(parts[0], c, Join(parts[1..], [c]), {c});
  }

  /** The first `k` elements of `[x] + s` are `x` followed by the first `k - 1` of `s`. */
  lemma TakeCons<T>(x: T, s: seq<T>, k: nat)
    requires 1 <= k <= |s| + 1
    ensures ([x] + s)[..k] == [x] + s[..k - 1]
  {
  }

  lemma {:induction false} LastSegmentNoSep(s: string, seps: set<char>)
    requires NoSep(s, seps)
    ensures LastSegment(s, seps) == s
  {
    if s != [] {
      LastSegmentNoSep(s[..|s| - 1], seps);
    }
  }

  /** The last segment after a separator `c` is what follows it when that holds no separator. */
  lemma {:induction false} LastSegmentAfterSep(p: string, c: char, e: string, seps: set<char>)
    requires c in seps && NoSep(e, seps)
    ensures LastSegment(p + [c] + e, seps) == e
  {
    var s := p + [c] + e;
    if e == [] {
      assert s[|s| - 1] == c;
    } else {
      var init := e[..|e| - 1];
      LastSegmentAfterSep(p, c, init, seps);
      assert s[..|s| - 1] == p + [c] + init;
      assert init + [e[|e| - 1]] == e;
    }
  }
}
