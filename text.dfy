/** String helpers: the parts of Python's and JavaScript's string API the
    storefront relies on, restricted to what the model needs. */
module Text {
  import opened Basics

  /** Whose notion of whitespace a strip uses: Python's `str.isspace()`,
      which `str.strip()`, `int()` and `Decimal()` share, or the WhiteSpace and
      LineTerminator characters that JavaScript's `trim()` and `parseInt`
      skip. */
  datatype Runtime = Python | JavaScript

  /** The Unicode space separators and line breaks both runtimes agree on,
      plus Python's information separators U+001C..U+001F and NEL U+0085, or
      JavaScript's byte-order mark U+FEFF. */
  predicate IsSpace(rt: Runtime, c: char)
  {
    var n := c as int;
    (9 <= n <= 13) || n == 0x20 || n == 0xA0 || n == 0x1680 || (0x2000 <= n <= 0x200A)
    || n == 0x2028 || n == 0x2029 || n == 0x202F || n == 0x205F || n == 0x3000
    || (rt == Python && ((0x1C <= n <= 0x1F) || n == 0x85))
    || (rt == JavaScript && n == 0xFEFF)
  }

  function TrimLeft(rt: Runtime, s: string): (r: string)
    ensures |r| <= |s| && r == s[|s| - |r|..]
    ensures r != [] ==> !IsSpace(rt, r[0])
    ensures forall i :: 0 <= i < |s| - |r| ==> IsSpace(rt, s[i])
  {
    if s != [] && IsSpace(rt, s[0]) then TrimLeft(rt, s[1..]) else s
  }

  function TrimRight(rt: Runtime, s: string): (r: string)
    ensures |r| <= |s| && r == s[..|r|]
    ensures r != [] ==> !IsSpace(rt, r[|r| - 1])
    ensures forall i :: |r| <= i < |s| ==> IsSpace(rt, s[i])
  {
    if s != [] && IsSpace(rt, s[|s| - 1]) then TrimRight(rt, s[..|s| - 1]) else s
  }

  /** `s.strip()` in Python, `s.trim()` in JavaScript: `s` without its
      leading and trailing runs of whitespace, the whole of each run. */
  function Trim(rt: Runtime, s: string): (r: string)
    ensures |r| <= |s|
    ensures r != [] ==> !IsSpace(rt, r[0]) && !IsSpace(rt, r[|r| - 1])
    ensures Stripped(rt, s, r)
  {
    var left := TrimLeft(rt, s);
    var r := TrimRight(rt, left);
    TrimRuns(rt, s, left, r);
    r
  }

  /** `r` is `s` with a blank run removed from each end. */
  predicate Stripped(rt: Runtime, s: string, r: string)
  {
    exists i :: 0 <= i <= |s| - |r| && r == s[i..i + |r|] && Blank(rt, s[..i]) && Blank(rt, s[i + |r|..])
  }

  /** The two runs a strip removes are blank, and what it keeps lies
      between them. */
  lemma TrimRuns(rt: Runtime, s: string, left: string, r: string)
    requires left == TrimLeft(rt, s) && r == TrimRight(rt, left)
    ensures Stripped(rt, s, r)
  {
    var i := |s| - |left|;
    assert s[i..] == left;
    SliceOfSlice(s, i, |r|);
    BlankPrefix(rt, s, i);
    BlankSuffix(rt, left, |r|);
    assert s[i + |r|..] == left[|r|..];
    assert r == s[i..i + |r|] && Blank(rt, s[..i]) && Blank(rt, s[i + |r|..]);
  }

  lemma SliceOfSlice(s: string, i: nat, k: nat)
    requires i + k <= |s|
    ensures s[i..][..k] == s[i..i + k]
  {
  }

  /** A prefix of whitespace characters is blank. */
  lemma BlankPrefix(rt: Runtime, s: string, k: nat)
    requires k <= |s| && forall i :: 0 <= i < k ==> IsSpace(rt, s[i])
    ensures Blank(rt, s[..k])
  {
    forall i | 0 <= i < k ensures IsSpace(rt, s[..k][i])
    {
      assert s[..k][i] == s[i];
    }
  }

  /** A suffix of whitespace characters is blank. */
  lemma BlankSuffix(rt: Runtime, s: string, k: nat)
    requires k <= |s| && forall i :: k <= i < |s| ==> IsSpace(rt, s[i])
    ensures Blank(rt, s[k..])
  {
    forall i | 0 <= i < |s| - k ensures IsSpace(rt, s[k..][i])
    {
      assert s[k..][i] == s[k + i];
    }
  }

  /** Every character is whitespace. */
  predicate Blank(rt: Runtime, s: string)
  {
    forall i :: 0 <= i < |s| ==> IsSpace(rt, s[i])
  }

  /** Stripping a blank string leaves nothing. */
  lemma TrimOfBlank(rt: Runtime, s: string)
    requires Blank(rt, s)
    ensures Trim(rt, s) == ""
  {
  }

  /** Two blank strings joined by a space are blank. */
  lemma BlankJoin(rt: Runtime, a: string, b: string)
    requires Blank(rt, a) && Blank(rt, b)
    ensures Blank(rt, a + " " + b)
  {
    var j := a + " " + b;
    forall i | 0 <= i < |j| ensures IsSpace(rt, j[i])
    {
      if i < |a| {
        assert j[i] == a[i];
      } else if i > |a| {
        assert j[i] == b[i - |a| - 1];
      }
    }
  }

  /** A blank join of two strings by a space has blank halves. */
  lemma BlankSplit(rt: Runtime, a: string, b: string)
    ensures Blank(rt, a + " " + b) ==> Blank(rt, a) && Blank(rt, b)
  {
    var j := a + " " + b;
    if Blank(rt, j) {
      forall i | 0 <= i < |a| ensures IsSpace(rt, a[i])
      {
        assert j[i] == a[i];
      }
      forall i | 0 <= i < |b| ensures IsSpace(rt, b[i])
      {
        assert j[|a| + 1 + i] == b[i];
      }
    }
  }

  /** A strip leaves nothing exactly when the string is blank. */
  lemma TrimEmptyIsBlank(rt: Runtime, s: string)
    ensures Trim(rt, s) == "" <==> Blank(rt, s)
  {
    if Trim(rt, s) == "" {
      var i :| 0 <= i <= |s| && Blank(rt, s[..i]) && Blank(rt, s[i..]);
      forall k | 0 <= k < |s| ensures IsSpace(rt, s[k])
      {
        if k < i {
          assert s[..i][k] == s[k];
        } else {
          assert s[i..][k - i] == s[k];
        }
      }
    } else if Blank(rt, s) {
      TrimOfBlank(rt, s);
    }
  }

  /** Two strings joined by a space strip to nothing exactly when both
      are blank. */
  lemma TrimJoinedEmpty(rt: Runtime, a: string, b: string)
    ensures Trim(rt, a + " " + b) == "" <==> Blank(rt, a) && Blank(rt, b)
  {
    TrimEmptyIsBlank(rt, a + " " + b);
    BlankSplit(rt, a, b);
    if Blank(rt, a) && Blank(rt, b) {
      BlankJoin(rt, a, b);
    }
  }

  /** What a strip keeps is a piece of the string it was taken from. */
  lemma TrimIsPiece(rt: Runtime, s: string)
    ensures Contains(s, Trim(rt, s))
  {
    var left := TrimLeft(rt, s);
    var r := Trim(rt, s);
    assert r == s[|s| - |left|..|s| - |left| + |r|];
    assert OccursAt(s, r, |s| - |left|);
  }

  function LowerChar(c: char): char
  {
    if 'A' <= c <= 'Z' then (c as int + 32) as char else c
  }

  /** `s.lower()` on ASCII letters. */
  function Lower(s: string): (r: string)
    ensures |r| == |s|
    ensures forall i :: 0 <= i < |s| ==> r[i] == LowerChar(s[i])
  {
    if s == [] then [] else [LowerChar(s[0])] + Lower(s[1..])
  }

  predicate StartsWith(s: string, p: string) { p <= s }

  predicate EndsWith(s: string, p: string) { |p| <= |s| && s[|s| - |p|..] == p }

  /** `sub in s`. */
  predicate Contains(s: string, sub: string)
  {
    exists i :: 0 <= i <= |s| && OccursAt(s, sub, i)
  }

  /** `sub` occurs in `s` starting at index `i`. */
  predicate OccursAt(s: string, sub: string, i: nat)
  {
    i + |sub| <= |s| && s[i..i + |sub|] == sub
  }

  /** Index of the first occurrence of `c` in `s`. */
  function IndexOf(s: string, c: char): (r: Option<nat>)
    ensures r.Some? ==> r.value < |s| && s[r.value] == c && (forall i :: 0 <= i < r.value ==> s[i] != c)
    ensures r.None? ==> forall i :: 0 <= i < |s| ==> s[i] != c
  {
    if s == [] then None
    else if s[0] == c then Some(0)
    else match IndexOf(s[1..], c)
      case None => None
      case Some(i) => Some(i + 1)
  }

  predicate IsDigit(c: char) { '0' <= c <= '9' }

  function DigitValue(c: char): (d: nat)
    requires IsDigit(c)
    ensures d < 10
  {
    c as int - '0' as int
  }

  function DigitChar(d: nat): (c: char)
    requires d < 10
    ensures IsDigit(c) && DigitValue(c) == d
  {
    (d + '0' as int) as char
  }

  /** Decimal rendering of a natural number, as `str(n)` writes it. */
  function NatToString(n: nat): (s: string)
    ensures |s| >= 1
    ensures forall i :: 0 <= i < |s| ==> IsDigit(s[i])
    decreases n
  {
    if n < 10 then [DigitChar(n)] else NatToString(n / 10) + [DigitChar(n % 10)]
  }

  /** `str(i)` for any integer. */
  function IntToString(i: int): string
  {
    if i < 0 then "-" + NatToString(-i) else NatToString(i)
  }

  predicate AllDigits(s: string)
  {
    forall i :: 0 <= i < |s| ==> IsDigit(s[i])
  }

  /** Value of a non-empty run of decimal digits. */
  function DigitsValue(s: string): (n: nat)
    requires AllDigits(s)
  {
    if s == [] then 0 else DigitsValue(s[..|s| - 1]) * 10 + DigitValue(s[|s| - 1])
  }

  /** Python's `int(s)` on a string: surrounding whitespace, an optional sign
      and at least one decimal digit; anything else raises ValueError (None). */
  function ParseInt(s: string): (r: Option<int>)
    ensures r.Some? ==> Trim(Python, s) != []
  {
    var t := Trim(Python, s);
    if t == [] then None
    else if t[0] == '-' || t[0] == '+' then
      var body := t[1..];
      if body != [] && AllDigits(body) then
        var v: int := DigitsValue(body);
        Some(if t[0] == '-' then -v else v)
      else None
    else if AllDigits(t) then Some(DigitsValue(t))
    else None
  }

  lemma {:induction false} DigitsValueOfNatToString(n: nat)
    ensures AllDigits(NatToString(n)) && DigitsValue(NatToString(n)) == n
    decreases n
  {
    if n >= 10 {
      DigitsValueOfNatToString(n / 10);
      var s := NatToString(n);
      assert s[..|s| - 1] == NatToString(n / 10);
    }
  }

  /** `int(str(i)) == i`. */
  lemma ParseIntOfIntToString(i: int)
    ensures ParseInt(IntToString(i)) == Some(i)
  {
    var s := IntToString(i);
    if i < 0 {
      var d := NatToString(-i);
      DigitsValueOfNatToString(-i);
      assert s == "-" + d;
      assert s[|s| - 1] == d[|d| - 1];
      TrimOfDigits(Python, s);
      assert s[1..] == d;
    } else {
      DigitsValueOfNatToString(i);
      assert IsDigit(s[0]) && IsDigit(s[|s| - 1]);
      TrimOfDigits(Python, s);
      assert !(s[0] == '-' || s[0] == '+');
    }
  }

  lemma TrimOfDigits(rt: Runtime, s: string)
    requires |s| >= 1
    requires !IsSpace(rt, s[0]) && !IsSpace(rt, s[|s| - 1])
    ensures Trim(rt, s) == s
  {
  }
}
