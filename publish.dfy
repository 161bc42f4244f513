/** `bumpVersion` of publish.js: split the version at dots, convert each of
    the first three parts with `Number`, add one to the patch and carry into
    the minor and the major whenever a component passes 9. JavaScript values
    that are not numbers travel through the arithmetic, so they are modelled:
    `NaN`, and `undefined` for a component the version does not have. */
module Publish {
  import opened Text
  import opened Decimal

  datatype Value = Num(n: nat) | NaN | Undefined

  /** `Number(part)` for a part holding no `.`: "" is 0, a digit string is its
      value, anything else is taken as `NaN`. */
  function ToNumber(part: string): Value
  {
    if part == "" then Num(0)
    else if IsDigits(part) then Num(Parse(part))
    else NaN
  }

  /** `x + 1`: `undefined + 1` and `NaN + 1` are `NaN`. */
  function Inc(x: Value): (r: Value)
    ensures r.Num? <==> x.Num?
    ensures x.Num? ==> r.n == x.n + 1
    ensures !x.Num? ==> r == NaN
  {
    match x
    case Num(n) => Num(n + 1)
    case _ => NaN
  }

  /** `x > 9`: false for `NaN` and `undefined`. */
  predicate AboveNine(x: Value)
  {
    x.Num? && x.n > 9
  }

  /** `String(x)` as `join` renders it: `undefined` becomes the empty string. */
  function Render(x: Value): (r: string)
    ensures NoSep(r, {'.'})
  {
    match x
    case Num(n) => DigitsNoDot(Format(n)); Format(n)
    case NaN => "NaN"
    case Undefined => ""
  }

  lemma DigitsNoDot(s: string)
    requires IsDigits(s)
    ensures NoSep(s, {'.'})
  {
  }

  /** The arithmetic of `bumpVersion` on the three destructured values. */
  function BumpValues(major: Value, minor: Value, patch: Value): (r: (Value, Value, Value))
  {
    var nextPatch := Inc(patch);
    var nextMinor := if AboveNine(nextPatch) then Inc(minor) else minor;
    var nextMajor := if AboveNine(nextMinor) then Inc(major) else major;
    var newPatch := if AboveNine(nextPatch) then Num(0) else nextPatch;
    var newMinor := if AboveNine(nextMinor) then Num(0) else nextMinor;
    (nextMajor, newMinor, newPatch)
  }

  /** The `k`-th destructured component: `undefined` past the end. */
  function Component(parts: seq<string>, k: nat): Value
  {
    if k < |parts| then ToNumber(parts[k]) else Undefined
  }

  /** `bumpVersion(version)`: always three dot-separated components. */
  function BumpVersion(version: string): (r: string)
    ensures |Split(r, {'.'})| == 3
  {
    var parts := Split(version, {'.'});
    var (major, minor, patch) := BumpValues(Component(parts, 0), Component(parts, 1), Component(parts, 2));
    var out := [Render(major), Render(minor), Render(patch)];
    SplitJoin(out, '.');
    Join(out, ".")
  }

  /** `a.b.c` as `join('.')` writes it. */
  function VersionText(major: nat, minor: nat, patch: nat): string
  {
    Join([Format(major), Format(minor), Format(patch)], ".")
  }

  /** The bump on numbers: patch + 1, with carries at 9. */
  function Bump(major: nat, minor: nat, patch: nat): (nat, nat, nat)
  {
    var r := BumpValues(Num(major), Num(minor), Num(patch));
    (r.0.n, r.1.n, r.2.n)
  }

  /** (a, b, c) comes strictly before (x, y, z) in (major, minor, patch) order. */
  predicate Before(a: (nat, nat, nat), b: (nat, nat, nat))
  {
    a.0 < b.0 || (a.0 == b.0 && (a.1 < b.1 || (a.1 == b.1 && a.2 < b.2)))
  }

  /** On numeric versions the carries work as a decimal odometer: the result
      is strictly later and components that were at most 9 stay at most 9. A
      minor already above 9 carries into the major even without a patch
      overflow (`1.12.3` becomes `2.0.4`). */
  lemma BumpProperties(major: nat, minor: nat, patch: nat)
    ensures var (x, y, z) := Bump(major, minor, patch);
      && Before((major, minor, patch), (x, y, z))
      && (minor <= 9 && patch <= 9 ==> y <= 9 && z <= 9)
      && (patch + 1 <= 9 && minor <= 9 ==> (x, y, z) == (major, minor, patch + 1))
      && (patch + 1 <= 9 && minor > 9 ==> (x, y, z) == (major + 1, 0, patch + 1))
      && (patch + 1 > 9 && minor + 1 <= 9 ==> (x, y, z) == (major, minor + 1, 0))
      && (patch + 1 > 9 && minor + 1 > 9 ==> (x, y, z) == (major + 1, 0, 0))
  {
    var r := BumpValues(Num(major), Num(minor), Num(patch));
    assert Inc(Num(patch)) == Num(patch + 1);
    assert Inc(Num(minor)) == Num(minor + 1);
    assert Inc(Num(major)) == Num(major + 1);
  }

  /** A version written as three numerals reads back as those numbers and
      bumps to the version of the bumped numbers. */
  lemma BumpVersionText(major: nat, minor: nat, patch: nat)
    ensures var (x, y, z) := Bump(major, minor, patch);
      BumpVersion(VersionText(major, minor, patch)) == VersionText(x, y, z)
  {
    var parts := [Format(major), Format(minor), Format(patch)];
    forall k | 0 <= k < 3 ensures NoSep(parts[k], {'.'}) {
      DigitsNoDot(parts[k]);
    }
    SplitJoin(parts, '.');
    ParseFormat(major);
    ParseFormat(minor);
    ParseFormat(patch);
    assert Component(parts, 0) == Num(major);
    assert Component(parts, 1) == Num(minor);
    assert Component(parts, 2) == Num(patch);
  }

  /** `1.9.9` becomes `2.0.0` and `1.2.3` becomes `1.2.4`. */
  lemma Examples()
    ensures BumpVersion(VersionText(1, 9, 9)) == VersionText(2, 0, 0)
    ensures BumpVersion(VersionText(1, 2, 3)) == VersionText(1, 2, 4)
  {
    BumpVersionText(1, 9, 9);
    BumpVersionText(1, 2, 3);
    BumpProperties(1, 9, 9);
    BumpProperties(1, 2, 3);
  }

  /** A version with fewer than three parts: the missing patch turns into
      `NaN` and the missing minor stays empty, so `1` becomes `1..NaN`. */
  lemma MissingComponents(major: nat)
    ensures BumpVersion(Format(major)) == Join([Format(major), "", "NaN"], ".")
  {
    DigitsNoDot(Format(major));
    SplitNoSep(Format(major), {'.'});
    assert Component([Format(major)], 0) == Num(major) by {
      ParseFormat(major);
    }
  }
}
