/** The pieces of JavaScript's string API the browser scripts use:
    `indexOf` of a substring, `split` on a non-empty separator, and
    `parseInt` in base 10 and 16. */
module JsText {
  import opened Basics
  import opened Text

  /** The first index at which `sub` occurs in `s`. */
  function FindSub(s: string, sub: string): (r: Option<nat>)
    requires sub != []
    ensures r.Some? ==> OccursAt(s, sub, r.value) && forall j :: 0 <= j < r.value ==> !OccursAt(s, sub, j)
    ensures r.None? ==> forall j :: 0 <= j <= |s| ==> !OccursAt(s, sub, j)
    decreases |s|
  {
    if |s| < |sub| then None
    else if s[..|sub|] == sub then Some(0)
    else
      assert forall j :: 1 <= j <= |s| ==> (OccursAt(s, sub, j) <==> OccursAt(s[1..], sub, j - 1)) by {
        forall j | 1 <= j <= |s| ensures OccursAt(s, sub, j) <==> OccursAt(s[1..], sub, j - 1)
        {
          if j + |sub| <= |s| { assert s[1..][j - 1..j - 1 + |sub|] == s[j..j + |sub|]; }
        }
      }
      match FindSub(s[1..], sub)
      case None => None
      case Some(k) => Some(k + 1)
  }

  /** `s.split(sep)`: the pieces between the non-overlapping occurrences
      of `sep`, found left to right. */
  function Split(s: string, sep: string): (r: seq<string>)
    requires sep != []
    ensures |r| >= 1
    decreases |s|
  {
    match FindSub(s, sep)
    case None => [s]
    case Some(i) => [s[..i]] + Split(s[i + |sep|..], sep)
  }

  /** `parts.join(sep)`. */
  function Join(parts: seq<string>, sep: string): (s: string)
  {
    if parts == [] then ""
    else if |parts| == 1 then parts[0]
    else parts[0] + sep + Join(parts[1..], sep)
  }

  /** Splitting and joining again gives back the string. */
  lemma {:induction false} JoinSplit(s: string, sep: string)
    requires sep != []
    ensures Join(Split(s, sep), sep) == s
    decreases |s|
  {
    var f := FindSub(s, sep);
    if f.Some? {
      var i := f.value;
      var rest := s[i + |sep|..];
      assert Split(s, sep) == [s[..i]] + Split(rest, sep);
      JoinSplit(rest, sep);
      JoinCons(s[..i], Split(rest, sep), sep);
      Around(s, i, |sep|);
    }
  }

  lemma Around(s: string, i: nat, n: nat)
    requires i + n <= |s|
    ensures s == s[..i] + s[i..i + n] + s[i + n..]
  {
  }

  lemma JoinCons(head: string, parts: seq<string>, sep: string)
    requires parts != []
    ensures Join([head] + parts, sep) == head + sep + Join(parts, sep)
  {
    assert ([head] + parts)[1..] == parts;
  }

  /** No piece contains the separator. */
  lemma {:induction false} SplitPiecesFree(s: string, sep: string)
    requires sep != []
    ensures forall k :: 0 <= k < |Split(s, sep)| ==> !Contains(Split(s, sep)[k], sep)
    decreases |s|
  {
    match FindSub(s, sep)
    case None =>
    case Some(i) =>
      SplitPiecesFree(s[i + |sep|..], sep);
      var head := s[..i];
      forall j | 0 <= j <= |head| ensures !OccursAt(head, sep, j)
      {
        if j + |sep| <= |head| {
          assert head[j..j + |sep|] == s[j..j + |sep|];
          assert !OccursAt(s, sep, j);
        }
      }
  }

  /** Splitting a string made of separator-free pieces recovers the
      pieces. */
  lemma {:induction false} SplitJoin(parts: seq<string>, sep: string)
    requires sep != [] && parts != []
    requires forall k :: 0 <= k < |parts| ==> !Contains(parts[k], sep)
    requires forall k :: 0 <= k < |parts| - 1 ==> !OverlapsEnd(parts[k], sep)
    ensures Split(Join(parts, sep), sep) == parts
    decreases |parts|
  {
    if |parts| == 1 {
      assert Join(parts, sep) == parts[0];
      NoOccurrence(parts[0], sep);
    } else {
      var head, tail := parts[0], Join(parts[1..], sep);
      var s := head + sep + tail;
      FirstAfterHead(head, sep, tail);
      assert s[|head| + |sep|..] == tail;
      assert s[..|head|] == head;
      SplitJoin(parts[1..], sep);
    }
  }

  /** Some proper, non-empty tail of `s` followed by `sep` would start an
      occurrence of `sep` that runs past the end of `s`. */
  predicate OverlapsEnd(s: string, sep: string)
  {
    exists j :: 0 <= j < |s| && j + |sep| > |s| && s[j..] <= sep
  }

  /** A string without the separator's first character neither contains
      the separator nor can start one. */
  lemma WithoutFirstChar(s: string, sep: string)
    requires sep != [] && sep[0] !in s
    ensures !Contains(s, sep) && !OverlapsEnd(s, sep)
  {
    forall j | 0 <= j < |s| ensures !(s[j..] <= sep) && !OccursAt(s, sep, j)
    {
      assert s[j..][0] == s[j];
      if j + |sep| <= |s| {
        assert s[j..j + |sep|][0] == s[j];
      }
    }
  }

  lemma NoOccurrence(s: string, sep: string)
    requires sep != [] && !Contains(s, sep)
    ensures FindSub(s, sep).None?
  {
  }

  /** In `head + sep + tail`, with `sep` neither inside `head` nor able to
      start inside it, the first occurrence is the one after `head`. */
  lemma FirstAfterHead(head: string, sep: string, tail: string)
    requires sep != [] && !Contains(head, sep) && !OverlapsEnd(head, sep)
    ensures FindSub(head + sep + tail, sep) == Some(|head|)
  {
    var s := head + sep + tail;
    assert s[|head|..|head| + |sep|] == sep;
    assert OccursAt(s, sep, |head|);
    forall j | 0 <= j < |head| ensures !OccursAt(s, sep, j)
    {
      if j + |sep| <= |head| {
        assert head[j..j + |sep|] == s[j..j + |sep|];
        assert !OccursAt(head, sep, j);
      } else {
        assert head[j..] == s[j..|head|];
        assert !(head[j..] <= sep);
      }
    }
  }

  // ---------------------------------------------------------------------
  // parseInt

  predicate IsRadixDigit(c: char, radix: nat)
  {
    if radix == 16 then IsDigit(c) || 'a' <= c <= 'f' || 'A' <= c <= 'F' else IsDigit(c)
  }

  function RadixDigitValue(c: char, radix: nat): (d: nat)
    requires IsRadixDigit(c, radix)
    ensures d < (if radix == 16 then 16 else 10)
  {
    if IsDigit(c) then DigitValue(c)
    else if 'a' <= c <= 'f' then c as int - 'a' as int + 10
    else c as int - 'A' as int + 10
  }

  predicate AllRadixDigits(s: string, radix: nat)
  {
    forall i :: 0 <= i < |s| ==> IsRadixDigit(s[i], radix)
  }

  /** How many leading characters of `s` are digits. */
  function DigitRun(s: string, radix: nat): (n: nat)
    ensures n <= |s| && AllRadixDigits(s[..n], radix)
    ensures n < |s| ==> !IsRadixDigit(s[n], radix)
  {
    if s == [] || !IsRadixDigit(s[0], radix) then 0
    else
      var k := DigitRun(s[1..], radix);
      assert s[..k + 1] == [s[0]] + s[1..][..k];
      k + 1
  }

  function RadixValue(s: string, radix: nat): (n: nat)
    requires AllRadixDigits(s, radix)
  {
    if s == [] then 0
    else RadixValue(s[..|s| - 1], radix) * (if radix == 16 then 16 else 10) + RadixDigitValue(s[|s| - 1], radix)
  }

  /** `parseInt(s, radix)` for base 10 or 16: leading whitespace, one
      optional sign, in base 16 an optional `0x`/`0X`, then the longest run
      of digits; `None` is `NaN`, when that run is empty. A blank string is
      `NaN`, a negative result was written with a minus sign, and a string
      of digits alone parses to its value. */
  function ParseIntJs(s: string, radix: nat): (r: Option<int>)
    requires radix == 10 || radix == 16
    ensures TrimLeft(JavaScript, s) == [] ==> r == None
    ensures r.Some? && r.value < 0 ==> "-" <= TrimLeft(JavaScript, s)
    ensures DigitsOnly(s, radix) ==> r == Some(RadixValue(s, radix))
  {
    var t := TrimLeft(JavaScript, s);
    var w := Unsigned(t, radix);
    var n := DigitRun(w, radix);
    assert DigitsOnly(s, radix) ==> w[..n] == s && !("-" <= t) by {
      if DigitsOnly(s, radix) {
        DigitsAlone(s, radix);
      }
    }
    if n == 0 then None
    else
      var v: nat := RadixValue(w[..n], radix);
      if t != [] && t[0] == '-' then Some(-(v as int)) else Some(v as int)
  }

  /** What follows the sign, and in base 16 a `0x`/`0X` prefix. */
  function Unsigned(t: string, radix: nat): (w: string)
    ensures |w| <= |t|
  {
    var u := if t != [] && (t[0] == '-' || t[0] == '+') then t[1..] else t;
    if radix == 16 && |u| >= 2 && u[0] == '0' && (u[1] == 'x' || u[1] == 'X') then u[2..] else u
  }

  /** A non-empty run of digits in the radix, in base 16 not starting
      with `0x` or `0X`. */
  predicate DigitsOnly(s: string, radix: nat)
  {
    s != [] && AllRadixDigits(s, radix)
    && (radix == 16 ==> !(|s| >= 2 && s[0] == '0' && (s[1] == 'x' || s[1] == 'X')))
  }

  /** A string of digits alone has nothing to skip and is all digit run. */
  lemma DigitsAlone(s: string, radix: nat)
    requires radix == 10 || radix == 16
    requires DigitsOnly(s, radix)
    ensures TrimLeft(JavaScript, s) == s && Unsigned(s, radix) == s && DigitRun(s, radix) == |s| && s[..|s|] == s
    ensures !("-" <= s)
  {
    assert IsRadixDigit(s[0], radix);
    assert !IsSpace(JavaScript, s[0]);
    AllDigitsRun(s, radix);
  }

  lemma {:induction false} AllDigitsRun(s: string, radix: nat)
    requires AllRadixDigits(s, radix)
    ensures DigitRun(s, radix) == |s|
  {
    if s != [] {
      AllDigitsRun(s[1..], radix);
    }
  }
}
