/**
 * The string helpers of Go's standard library that the service relies on:
 * `strings.TrimSpace`, `strings.HasPrefix`, the first-separator split done by
 * `strings.SplitN(s, sep, 2)` and the base name returned by `filepath.Split`.
 * Strings are sequences of Unicode scalar values.
 */
module Text {
  import opened Wrappers

  /** Go's `unicode.IsSpace`: the Latin-1 spaces and the Unicode White_Space property. */
  predicate IsSpace(c: char) {
    var n := c as int;
    n == 0x09 || n == 0x0A || n == 0x0B || n == 0x0C || n == 0x0D || n == 0x20
    || n == 0x85 || n == 0xA0 || n == 0x1680 || (0x2000 <= n <= 0x200A)
    || n == 0x2028 || n == 0x2029 || n == 0x202F || n == 0x205F || n == 0x3000
  }

  predicate AllSpace(s: string) {
    forall i :: 0 <= i < |s| ==> IsSpace(s[i])
  }

  predicate NoSpace(s: string) {
    forall i :: 0 <= i < |s| ==> !IsSpace(s[i])
  }

  /** Drops the leading white space (see TrimLeftShape). */
  function TrimLeft(s: string): string {
    if s != [] && IsSpace(s[0]) then TrimLeft(s[1..]) else s
  }

  /** Drops the trailing white space (see TrimRightShape). */
  function TrimRight(s: string): string {
    if s != [] && IsSpace(s[|s| - 1]) then TrimRight(s[..|s| - 1]) else s
  }

  /** Go's `strings.TrimSpace` (see TrimSpaceShape). */
  function TrimSpace(s: string): string {
    TrimRight(TrimLeft(s))
  }

  /** TrimLeft keeps a suffix that does not start with a space, and what it drops is all space. */
  lemma {:induction false} TrimLeftShape(s: string)
    ensures |TrimLeft(s)| <= |s| && TrimLeft(s) == s[|s| - |TrimLeft(s)|..]
    ensures AllSpace(s[..|s| - |TrimLeft(s)|])
    ensures TrimLeft(s) == [] || !IsSpace(TrimLeft(s)[0])
  {
    if s != [] && IsSpace(s[0]) {
      TrimLeftShape(s[1..]);
      var k := |s| - |TrimLeft(s)|;
      assert s[..k] == [s[0]] + s[1..][..k - 1];
    }
  }

  /** TrimRight keeps a prefix that does not end with a space, and what it drops is all space. */
  lemma {:induction false} TrimRightShape(s: string)
    ensures |TrimRight(s)| <= |s| && TrimRight(s) == s[..|TrimRight(s)|]
    ensures AllSpace(s[|TrimRight(s)|..])
    ensures TrimRight(s) == [] || !IsSpace(TrimRight(s)[|TrimRight(s)| - 1])
  {
    if s != [] && IsSpace(s[|s| - 1]) {
      var p := s[..|s| - 1];
      TrimRightShape(p);
      var k := |TrimRight(s)|;
      assert s[k..] == p[k..] + [s[|s| - 1]];
    }
  }

  /**
   * What TrimSpace removes is white space at both ends, and what remains
   * is a slice of the input that neither starts nor ends with white space.
   */
  lemma TrimSpaceShape(s: string)
    ensures exists i :: 0 <= i <= |s| - |TrimSpace(s)| && AllSpace(s[..i])
                        && s[i..i + |TrimSpace(s)|] == TrimSpace(s) && AllSpace(s[i + |TrimSpace(s)|..])
    ensures TrimSpace(s) == [] || (!IsSpace(TrimSpace(s)[0]) && !IsSpace(TrimSpace(s)[|TrimSpace(s)| - 1]))
  {
    var left := TrimLeft(s);
    var r := TrimSpace(s);
    TrimLeftShape(s);
    TrimRightShape(left);
    var i := |s| - |left|;
    assert s[i..i + |r|] == r && s[i + |r|..] == left[|r|..];
    if r != [] {
      assert r[0] == left[0];
    }
  }

  /** Go's `strings.HasPrefix`. */
  predicate HasPrefix(s: string, prefix: string) {
    |prefix| <= |s| && s[..|prefix|] == prefix
  }

  /** The index of the first occurrence of `c` in `s`, as `strings.SplitN(s, string(c), 2)` splits there. */
  function IndexOf(s: string, c: char): (r: Option<nat>)
    ensures r.None? <==> c !in s
    ensures r.Some? ==> r.value < |s| && s[r.value] == c && forall j :: 0 <= j < r.value ==> s[j] != c
  {
    if s == [] then None
    else if s[0] == c then Some(0)
    else match IndexOf(s[1..], c)
      case None => None
      case Some(i) => Some(i + 1)
  }

  /**
   * The file part of `filepath.Split(path)` on a system whose separator is '/':
   * the text after the last '/', or the whole path when it has none (see BaseNameShape).
   */
  function BaseName(path: string): string {
    if path == [] then []
    else if path[|path| - 1] == '/' then []
    else BaseName(path[..|path| - 1]) + [path[|path| - 1]]
  }

  /** BaseName is the longest suffix of the path without '/'. */
  lemma {:induction false} BaseNameShape(path: string)
    ensures '/' !in BaseName(path)
    ensures |BaseName(path)| <= |path| && BaseName(path) == path[|path| - |BaseName(path)|..]
    ensures |BaseName(path)| < |path| ==> path[|path| - |BaseName(path)| - 1] == '/'
  {
    if path != [] && path[|path| - 1] != '/' {
      var p, last := path[..|path| - 1], path[|path| - 1];
      var b := BaseName(p);
      BaseNameShape(p);
      assert BaseName(path) == b + [last];
      assert '/' !in b + [last];
      assert path[|path| - |b| - 1..] == p[|p| - |b|..] + [last];
    }
  }

  /** Leading white space does not change what TrimLeft keeps. */
  lemma {:induction false} TrimLeftSkipsSpace(w: string, t: string)
    requires AllSpace(w)
    ensures TrimLeft(w + t) == TrimLeft(t)
  {
    if w != [] {
      var s := w + t;
      assert s[0] == w[0] && IsSpace(s[0]);
      assert s[1..] == w[1..] + t;
      calc {
        TrimLeft(s);
        TrimLeft(s[1..]);
        { TrimLeftSkipsSpace(w[1..], t); }
        TrimLeft(t);
      }
    } else {
      assert w + t == t;
    }
  }

  /** Trailing white space does not change what TrimRight keeps. */
  lemma {:induction false} TrimRightSkipsSpace(t: string, w: string)
    requires AllSpace(w)
    ensures TrimRight(t + w) == TrimRight(t)
  {
    if w != [] {
      var s, n := t + w, |w| - 1;
      assert s[|s| - 1] == w[n] && IsSpace(s[|s| - 1]);
      assert s[..|s| - 1] == t + w[..n];
      calc {
        TrimRight(s);
        TrimRight(s[..|s| - 1]);
        { TrimRightSkipsSpace(t, w[..n]); }
        TrimRight(t);
      }
    } else {
      assert t + w == t;
    }
  }

  /** Once a non-space character has been reached, TrimLeft keeps everything after it. */
  lemma {:induction false} TrimLeftAppend(t: string, u: string)
    requires TrimLeft(t) != []
    ensures TrimLeft(t + u) == TrimLeft(t) + u
  {
    if IsSpace(t[0]) {
      assert (t + u)[1..] == t[1..] + u;
      TrimLeftAppend(t[1..], u);
    }
  }

  /** White space around a text, of any amount on either side, is removed by TrimSpace. */
  lemma TrimSpaceSurrounded(w1: string, t: string, w2: string)
    requires AllSpace(w1) && AllSpace(w2)
    ensures TrimSpace(w1 + t + w2) == TrimSpace(t)
  {
    assert w1 + t + w2 == w1 + (t + w2);
    TrimLeftSkipsSpace(w1, t + w2);
    if TrimLeft(t) != [] {
      TrimLeftAppend(t, w2);
      TrimRightSkipsSpace(TrimLeft(t), w2);
    } else {
      TrimLeftShape(t);
      assert AllSpace(t);
      assert AllSpace(t + w2);
      TrimLeftSkipsSpace(t + w2, []);
      assert t + w2 + [] == t + w2;
    }
  }

  /** A text without white space is its own trimmed form. */
  lemma TrimSpaceNoSpace(s: string)
    requires NoSpace(s)
    ensures TrimSpace(s) == s
  {
  }

  /** Trimming twice is trimming once. */
  lemma TrimSpaceIdempotent(s: string)
    ensures TrimSpace(TrimSpace(s)) == TrimSpace(s)
  {
    var r := TrimSpace(s);
    TrimSpaceShape(s);
    if r != [] {
      assert TrimLeft(r) == r;
    }
  }
}
