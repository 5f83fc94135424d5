/** Strings as the two halves of the platform see them: Python code points on
    the harness side, Go runes on the server side. */
module Text {

  datatype Option<+T> = None | Some(value: T)

  /** unicode.IsSpace, the class strings.TrimSpace removes. */
  predicate GoSpace(c: char) {
    var n := c as int;
    || 0x09 <= n <= 0x0d || n == 0x20 || n == 0x85 || n == 0xa0
    || n == 0x1680 || 0x2000 <= n <= 0x200a || n == 0x2028 || n == 0x2029
    || n == 0x202f || n == 0x205f || n == 0x3000
  }

  /** str.isspace, the class str.strip removes: Go's plus the four separators. */
  predicate PySpace(c: char) {
    GoSpace(c) || 0x1c <= c as int <= 0x1f
  }

  function TrimLeft(s: string, space: char -> bool): (r: string)
    ensures |r| <= |s|
    ensures r != [] ==> !space(r[0])
  {
    if s != [] && space(s[0]) then TrimLeft(s[1..], space) else s
  }

  function TrimRight(s: string, space: char -> bool): (r: string)
    ensures r <= s
    ensures r != [] ==> !space(r[|r| - 1])
  {
    if s != [] && space(s[|s| - 1]) then TrimRight(s[..|s| - 1], space) else s
  }

  function Trim(s: string, space: char -> bool): string {
    TrimRight(TrimLeft(s, space), space)
  }

  function PyStrip(s: string): string { Trim(s, PySpace) }

  function GoTrimSpace(s: string): string { Trim(s, GoSpace) }

  lemma {:induction false} LeftTrimmed(s: string, space: char -> bool) returns (left: string)
    ensures s == left + TrimLeft(s, space) && forall c | c in left :: space(c)
  {
    if s != [] && space(s[0]) {
      var rest := LeftTrimmed(s[1..], space);
      left := [s[0]] + rest;
      assert s == [s[0]] + s[1..];
    } else {
      left := [];
    }
  }

  lemma {:induction false} RightTrimmed(s: string, space: char -> bool) returns (right: string)
    ensures s == TrimRight(s, space) + right && forall c | c in right :: space(c)
  {
    if s != [] && space(s[|s| - 1]) {
      var rest := RightTrimmed(s[..|s| - 1], space);
      right := rest + [s[|s| - 1]];
      assert s == s[..|s| - 1] + [s[|s| - 1]];
    } else {
      right := [];
    }
  }

  /** Trimming takes spaces off both ends, all of them and nothing else. */
  lemma Trimmed(s: string, space: char -> bool) returns (left: string, right: string)
    ensures s == left + Trim(s, space) + right
    ensures forall c | c in left || c in right :: space(c)
    ensures Tight(Trim(s, space), space)
  {
    left := LeftTrimmed(s, space);
    right := RightTrimmed(TrimLeft(s, space), space);
    TrimTight(s, space);
  }

  /** Trimming is monotone on prefixes: what streaming deltas rely on. */
  lemma TrimMonotone(a: string, b: string, space: char -> bool)
    requires a <= b
    ensures Trim(a, space) <= Trim(b, space)
  {
    TrimLeftMonotone(a, b, space);
    TrimRightMonotone(TrimLeft(a, space), TrimLeft(b, space), space);
  }

  /** The delta after what was already streamed completes the new text. */
  lemma StripDelta(said: string, now: string)
    requires said <= now
    ensures PyStrip(said) <= PyStrip(now)
    ensures PyStrip(said) + PyStrip(now)[|PyStrip(said)|..] == PyStrip(now)
    ensures |PyStrip(now)| <= |PyStrip(said)| ==> PyStrip(now) == PyStrip(said)
  {
    TrimMonotone(said, now, PySpace);
  }

  lemma {:induction false} TrimLeftMonotone(a: string, b: string, space: char -> bool)
    requires a <= b
    ensures TrimLeft(a, space) <= TrimLeft(b, space)
  {
    if a != [] && space(a[0]) {
      TrimLeftMonotone(a[1..], b[1..], space);
    }
  }

  lemma {:induction false} TrimRightMonotone(a: string, b: string, space: char -> bool)
    requires a <= b
    ensures TrimRight(a, space) <= TrimRight(b, space)
  {
    if a == b {
    } else if space(b[|b| - 1]) {
      assert a <= b[..|b| - 1];
      TrimRightMonotone(a, b[..|b| - 1], space);
    } else {
      assert TrimRight(a, space) <= a;
    }
  }

  /** A text with no space of class `space` at either end is left alone. */
  predicate Tight(s: string, space: char -> bool) {
    s == [] || (!space(s[0]) && !space(s[|s| - 1]))
  }

  lemma TrimTight(s: string, space: char -> bool)
    ensures Tight(Trim(s, space), space)
    ensures Tight(s, space) ==> Trim(s, space) == s
  {
    var l := TrimLeft(s, space);
    var t := TrimRight(l, space);
    assert t <= l;
    if t != [] {
      assert t[0] == l[0];
    }
  }

  /** Text that Python stripped is also fixed by Go's TrimSpace. */
  lemma PyStripFixed(s: string)
    ensures PyStrip(PyStrip(s)) == PyStrip(s)
    ensures GoTrimSpace(PyStrip(s)) == PyStrip(s)
  {
    TrimTight(s, PySpace);
    TrimTight(PyStrip(s), PySpace);
    TrimTight(PyStrip(s), GoSpace);
  }

  /** The characters each side strips: Go's 25, and four separators more in Python. */
  lemma StrippedChars(c: char)
    ensures GoTrimSpace([c]) == "" <==>
      c as int in {9, 10, 11, 12, 13, 32, 133, 160, 5760, 8192, 8193, 8194, 8195, 8196, 8197, 8198, 8199, 8200, 8201,
                   8202, 8232, 8233, 8239, 8287, 12288}
    ensures PyStrip([c]) == "" <==> GoTrimSpace([c]) == "" || c as int in {28, 29, 30, 31}
  {
    TrimTight([c], GoSpace);
    TrimTight([c], PySpace);
  }

  predicate NoDup<T(==)>(s: seq<T>) {
    forall i, j :: 0 <= i < j < |s| ==> s[i] != s[j]
  }
}
