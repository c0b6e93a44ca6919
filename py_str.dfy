/**
 * The few Python string and POSIX path operations the modelled code relies on:
 * str.split and str.join on a one-character separator, str(n) for a natural
 * number, str.find, str.endswith, and posixpath's join, splitext and basename.
 * Each is written the way CPython defines it, for the inputs the source gives it.
 */
module PyStr {

  const Slash: char := '/'
  const Dot: char := '.'

  // ---------------------------------------------------------------------------
  // str.split(c) and c.join(parts) for a one-character separator c

  /** `s.split(c)`: the pieces between occurrences of `c`, always at least one. */
  function Split(s: string, c: char): (r: seq<string>)
    ensures |r| >= 1
    ensures forall i :: 0 <= i < |r| ==> c !in r[i]
    decreases |s|
  {
    if |s| == 0 then [""]
    else
      var rest := Split(s[1..], c);
      if s[0] == c then [""] + rest
      else [[s[0]] + rest[0]] + rest[1..]
  }

  /** `c.join(parts)`. */
  function Join(parts: seq<string>, c: char): string
    decreases |parts|
  {
    if |parts| == 0 then ""
    else if |parts| == 1 then parts[0]
    else parts[0] + [c] + Join(parts[1..], c)
  }

  /** Splitting and joining again gives back the string. */
  lemma {:induction false} JoinSplit(s: string, c: char)
    ensures Join(Split(s, c), c) == s
    decreases |s|
  {
    if |s| > 0 {
      JoinSplit(s[1..], c);
      var rest := Split(s[1..], c);
      if s[0] == c {
        assert Split(s, c) == [""] + rest;
        assert Join([""] + rest, c) == "" + [c] + Join(rest, c) by {
          assert ([""] + rest)[1..] == rest;
        }
        assert s == [s[0]] + s[1..];
      } else {
        var parts := [[s[0]] + rest[0]] + rest[1..];
        assert Split(s, c) == parts;
        if |rest| == 1 {
          assert Join(parts, c) == [s[0]] + rest[0];
          assert s == [s[0]] + s[1..];
        } else {
          assert parts[1..] == rest[1..];
          assert Join(parts, c) == [s[0]] + rest[0] + [c] + Join(rest[1..], c);
          assert Join(rest, c) == rest[0] + [c] + Join(rest[1..], c);
          assert s == [s[0]] + s[1..];
        }
      }
    }
  }

  /** Joining pieces free of the separator and splitting again gives back the pieces. */
  lemma {:induction false} SplitJoin(parts: seq<string>, c: char)
    requires |parts| >= 1
    requires forall i :: 0 <= i < |parts| ==> c !in parts[i]
    ensures Split(Join(parts, c), c) == parts
    decreases |parts|, |parts[0]|
  {
    if |parts| == 1 {
      SplitNoSeparator(parts[0], c);
    } else if |parts[0]| == 0 {
      var tail := parts[1..];
      SplitJoin(tail, c);
      assert Join(parts, c) == [c] + Join(tail, c);
      assert ([c] + Join(tail, c))[1..] == Join(tail, c);
      assert parts == [""] + tail;
    } else {
      var p0 := parts[0];
      var shorter := [p0[1..]] + parts[1..];
      assert forall i :: 0 <= i < |shorter| ==> c !in shorter[i] by {
        forall i | 0 <= i < |shorter| ensures c !in shorter[i] {
          if i == 0 {
            assert forall x :: x in p0[1..] ==> x in p0;
          } else {
            assert shorter[i] == parts[i];
          }
        }
      }
      SplitJoin(shorter, c);
      assert shorter[1..] == parts[1..];
      var s := Join(parts, c);
      assert s == p0 + [c] + Join(parts[1..], c);
      assert Join(shorter, c) == p0[1..] + [c] + Join(parts[1..], c);
      assert s[0] == p0[0] && s[0] != c;
      assert s[1..] == Join(shorter, c);
      assert p0 == [p0[0]] + p0[1..];
    }
  }

  lemma {:induction false} SplitNoSeparator(s: string, c: char)
    requires c !in s
    ensures Split(s, c) == [s]
    decreases |s|
  {
    if |s| > 0 {
      assert forall x :: x in s[1..] ==> x in s;
      SplitNoSeparator(s[1..], c);
      assert s == [s[0]] + s[1..];
    }
  }

  /** Joining is also adding the last piece after the join of the others. */
  lemma {:induction false} JoinSnoc(parts: seq<string>, c: char)
    requires |parts| >= 2
    ensures Join(parts, c) == Join(parts[..|parts| - 1], c) + [c] + parts[|parts| - 1]
    decreases |parts|
  {
    if |parts| > 2 {
      JoinSnoc(parts[1..], c);
      assert parts[1..][..|parts| - 2] == parts[..|parts| - 1][1..];
      assert parts[..|parts| - 1][0] == parts[0];
    } else {
      assert parts[..1] == [parts[0]];
      assert parts[1..] == [parts[1]];
    }
  }

  /** `''.join(values)`. */
  function Concat(values: seq<string>): string {
    if |values| == 0 then "" else Concat(values[..|values| - 1]) + values[|values| - 1]
  }

  /** `s[lo:hi]` for non-negative bounds: both are clamped to the length, and a reversed range is empty. */
  function Slice(s: string, lo: nat, hi: nat): (r: string)
    ensures lo <= hi <= |s| ==> r == s[lo..hi]
    ensures hi <= lo ==> r == ""
  {
    var a := if lo <= |s| then lo else |s|;
    var b := if hi <= |s| then hi else |s|;
    if a <= b then s[a..b] else ""
  }

  // ---------------------------------------------------------------------------
  // str(n) for a natural number

  function DigitChar(d: nat): (ch: char)
    requires d < 10
    ensures '0' <= ch <= '9'
  {
    ['0', '1', '2', '3', '4', '5', '6', '7', '8', '9'][d]
  }

  /** `str(n)`: the decimal digits of `n`, most significant first. */
  function Decimal(n: nat): (r: string)
    ensures |r| >= 1
    ensures forall i :: 0 <= i < |r| ==> '0' <= r[i] <= '9'
    ensures n >= 10 ==> |r| >= 2
  {
    if n < 10 then [DigitChar(n)] else Decimal(n / 10) + [DigitChar(n % 10)]
  }

  /** Different numbers print differently: the identifier suffixes `_1`, `_2`, ... never repeat. */
  lemma {:induction false} DecimalInjective(a: nat, b: nat)
    requires Decimal(a) == Decimal(b)
    ensures a == b
    decreases a
  {
    if a < 10 && b < 10 {
      assert DigitChar(a) == Decimal(a)[0] == Decimal(b)[0] == DigitChar(b);
      DigitCharInjective(a, b);
    } else if a >= 10 && b >= 10 {
      var da, db := Decimal(a), Decimal(b);
      assert DigitChar(a % 10) == da[|da| - 1] == db[|db| - 1] == DigitChar(b % 10);
      DigitCharInjective(a % 10, b % 10);
      assert Decimal(a / 10) == da[..|da| - 1] == db[..|db| - 1] == Decimal(b / 10);
      DecimalInjective(a / 10, b / 10);
      assert a == 10 * (a / 10) + a % 10 && b == 10 * (b / 10) + b % 10;
    }
  }

  lemma DigitCharInjective(x: nat, y: nat)
    requires x < 10 && y < 10 && DigitChar(x) == DigitChar(y)
    ensures x == y
  {
  }

  // ---------------------------------------------------------------------------
  // Searching

  predicate OccursAt(s: string, pat: string, i: int) {
    0 <= i && i + |pat| <= |s| && s[i..i + |pat|] == pat
  }

  /** `s.find(pat, start)`: the lowest index at or after `start` where `pat` occurs, or -1. */
  function Find(s: string, pat: string, start: nat): (r: int)
    ensures r == -1 || (start <= r && OccursAt(s, pat, r))
    ensures r == -1 ==> forall j :: start <= j ==> !OccursAt(s, pat, j)
    ensures r != -1 ==> forall j :: start <= j < r ==> !OccursAt(s, pat, j)
    decreases |s| - start
  {
    if start + |pat| > |s| then -1
    else if s[start..start + |pat|] == pat then start
    else Find(s, pat, start + 1)
  }

  predicate EndsWith(s: string, suffix: string) {
    |suffix| <= |s| && s[|s| - |suffix|..] == suffix
  }

  /** `s.rfind(c)` for one character: the last index of `c`, or -1. */
  function RFind(s: string, c: char): (r: int)
    ensures -1 <= r < |s|
    ensures r >= 0 ==> s[r] == c
    ensures forall j :: r < j < |s| ==> s[j] != c
    decreases |s|
  {
    if |s| == 0 then -1
    else if s[|s| - 1] == c then |s| - 1
    else RFind(s[..|s| - 1], c)
  }

  // ---------------------------------------------------------------------------
  // posixpath

  /** `posixpath.join(a, b)` for two components. */
  function PathJoin(a: string, b: string): string {
    if |b| > 0 && b[0] == Slash then b
    else if a == "" || a[|a| - 1] == Slash then a + b
    else a + [Slash] + b
  }

  /**
   * Two names that begin with the same character join onto the same folder
   * to the same path only if they are the same name.
   */
  lemma PathJoinInjective(a: string, b1: string, b2: string)
    requires |b1| > 0 && |b2| > 0 && b1[0] == b2[0]
    requires PathJoin(a, b1) == PathJoin(a, b2)
    ensures b1 == b2
  {
    if b1[0] != Slash {
      var p := if a == "" || a[|a| - 1] == Slash then a else a + [Slash];
      assert PathJoin(a, b1) == p + b1 && PathJoin(a, b2) == p + b2;
      assert b1 == (p + b1)[|p|..] && b2 == (p + b2)[|p|..];
    }
  }

  predicate HasNonDotBetween(p: string, lo: int, hi: int)
    requires -1 <= lo && hi <= |p|
  {
    exists k :: lo <= k < hi && 0 <= k && p[k] != Dot
  }

  /**
   * `posixpath.splitext(p)`: the extension starts at the last dot of the last
   * component, unless everything before that dot in the component is dots.
   */
  function SplitExt(p: string): (r: (string, string))
    ensures r.0 + r.1 == p
    ensures r.1 == "" || (r.1[0] == Dot && Slash !in r.1 && Dot !in r.1[1..])
  {
    var sepIndex := RFind(p, Slash);
    var dotIndex := RFind(p, Dot);
    if dotIndex > sepIndex && HasNonDotBetween(p, sepIndex + 1, dotIndex) then
      assert p == p[..dotIndex] + p[dotIndex..];
      assert forall k :: 0 <= k < |p[dotIndex..][1..]| ==> p[dotIndex..][1..][k] == p[dotIndex + 1 + k];
      (p[..dotIndex], p[dotIndex..])
    else
      (p, "")
  }

  lemma {:induction false} RFindAppend(a: string, b: string, c: char)
    ensures c in b ==> RFind(a + b, c) == |a| + RFind(b, c)
    ensures c !in b ==> RFind(a + b, c) == RFind(a, c)
    decreases |b|
  {
    if |b| == 0 {
      assert a + b == a;
    } else {
      var ab := a + b;
      var b' := b[..|b| - 1];
      assert ab[..|ab| - 1] == a + b';
      RFindAppend(a, b', c);
      if b[|b| - 1] != c {
        assert c in b <==> c in b' by {
          assert b == b' + [b[|b| - 1]];
        }
      }
    }
  }

  lemma {:induction false} RFindPrefix(p: string, d: int, c: char)
    requires 0 <= d <= |p|
    requires RFind(p, c) < d
    ensures RFind(p[..d], c) == RFind(p, c)
    decreases |p| - d
  {
    if d < |p| {
      RFindPrefix(p, d + 1, c);
      assert p[..d + 1][..d] == p[..d];
      assert p[..d + 1][d] == p[d] != c;
    } else {
      assert p[..d] == p;
    }
  }

  /**
   * A plain file name splits at its extension: with no slash, a stem that is
   * not all dots and an extension holding a single leading dot,
   * `splitext(stem + ext)` gives back `stem` and `ext`.
   */
  lemma SplitExtFileName(stem: string, ext: string)
    requires Slash !in stem && HasNonDotBetween(stem, 0, |stem|)
    requires |ext| > 0 && ext[0] == Dot && Dot !in ext[1..] && Slash !in ext
    ensures SplitExt(stem + ext) == (stem, ext)
  {
    var p := stem + ext;
    assert RFind(ext, Dot) == 0 by {
      RFindAppend([ext[0]], ext[1..], Dot);
      assert [ext[0]] + ext[1..] == ext;
    }
    RFindAppend(stem, ext, Dot);
    RFindAppend(stem, ext, Slash);
    assert RFind(p, Slash) == -1;
    var k :| 0 <= k < |stem| && stem[k] != Dot;
    assert p[k] == stem[k];
    assert p[..|stem|] == stem && p[|stem|..] == ext;
  }

  /** `posixpath.basename(p)`: what follows the last slash. */
  function BaseName(p: string): (r: string)
    ensures EndsWith(p, r)
  {
    p[RFind(p, Slash) + 1..]
  }
}
