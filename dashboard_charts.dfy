/** The pure parts of the analytics chart script: `hexToRgba`, which turns a
    CSS hex colour into an `rgba(...)` string, and the value range of the
    fallback canvas chart. */
module DashboardCharts {
  import opened Basics
  import opened Text
  import opened JsText

  /** `hex.replace('#', '')`: a string pattern replaces only its first
      occurrence.  Putting the `#` back where it was gives the input. */
  function StripHash(s: string): (r: string)
    ensures '#' !in s ==> r == s
    ensures '#' in s ==> exists i :: 0 <= i <= |r| && s == r[..i] + "#" + r[i..] && '#' !in r[..i]
  {
    match IndexOf(s, '#')
    case None => s
    case Some(i) =>
      var r := s[..i] + s[i + 1..];
      assert r[..i] == s[..i] && r[i..] == s[i + 1..];
      assert s == r[..i] + "#" + r[i..];
      r
  }

  /** The three-digit form `abc` spelled out as `aabbcc`. */
  function Expand(h: string): (r: string)
    ensures |h| == 3 ==> |r| == 6 && forall i :: 0 <= i < 6 ==> r[i] == h[i / 2]
    ensures |h| != 3 ==> r == h
  {
    if |h| == 3 then [h[0], h[0], h[1], h[1], h[2], h[2]] else h
  }

  /** The digits `parseInt` reads: the expanded colour, or `000000` when
      nothing is left. */
  function HexDigits(hex: string): string
  {
    var h := Expand(StripHash(hex));
    if h == "" then "000000" else h
  }

  const TwoTo32: nat := 0x1_0000_0000

  /** `(num >> 16) & 255`, `(num >> 8) & 255` and `num & 255`.  The shifts
      act on the 32-bit pattern of `num`, and a `NaN` from `parseInt` (`None`)
      becomes 0. */
  function Channels(hex: string): (c: (nat, nat, nat))
    ensures c.0 < 256 && c.1 < 256 && c.2 < 256
  {
    Unpack(ParseIntJs(HexDigits(hex), 16))
  }

  function Unpack(num: Option<int>): (c: (nat, nat, nat))
    ensures c.0 < 256 && c.1 < 256 && c.2 < 256
  {
    var u := if num.Some? then num.value % TwoTo32 else 0;
    ((u / 65536) % 256, (u / 256) % 256, u % 256)
  }

  /** `hexToRgba(hex, alpha)`; `alpha` is the number as JavaScript prints it,
      and a missing `hex` is the empty string. */
  function HexToRgba(hex: string, alpha: string): (s: string)
    ensures ',' !in alpha ==>
              var c := Channels(hex);
              |s| >= 6 && s[..5] == "rgba(" && s[|s| - 1] == ')'
              && Split(s[5..|s| - 1], ", ") == [NatToString(c.0), NatToString(c.1), NatToString(c.2), alpha]
              && c.0 < 256 && c.1 < 256 && c.2 < 256
  {
    Rgba(Channels(hex), alpha)
  }

  /** The template `rgba(${r}, ${g}, ${b}, ${alpha})`.  The string reads
      back: between `rgba(` and `)`, splitting on `", "` gives the three
      channels in decimal and then `alpha`. */
  function Rgba(c: (nat, nat, nat), alpha: string): (s: string)
    ensures |s| >= 6 && s[..5] == "rgba(" && s[|s| - 1] == ')'
    ensures ',' !in alpha ==> Split(s[5..|s| - 1], ", ") == [NatToString(c.0), NatToString(c.1), NatToString(c.2), alpha]
  {
    var r, g, b := NatToString(c.0), NatToString(c.1), NatToString(c.2);
    var inner := r + ", " + g + ", " + b + ", " + alpha;
    Framed(inner);
    assert ',' !in alpha ==> Split(inner, ", ") == [r, g, b, alpha] by {
      if ',' !in alpha {
        Join4(r, g, b, alpha, ", ");
        NoComma(r);
        NoComma(g);
        NoComma(b);
        WithoutFirstChar(alpha, ", ");
        SplitJoin([r, g, b, alpha], ", ");
      }
    }
    "rgba(" + inner + ")"
  }

  lemma Framed(inner: string)
    ensures var s := "rgba(" + inner + ")";
            |s| >= 6 && s[..5] == "rgba(" && s[|s| - 1] == ')' && s[5..|s| - 1] == inner
  {
  }

  lemma Join4(a: string, b: string, c: string, d: string, sep: string)
    ensures Join([a, b, c, d], sep) == a + sep + b + sep + c + sep + d
  {
    JoinCons(c, [d], sep);
    assert [c, d] == [c] + [d];
    JoinCons(b, [c, d], sep);
    assert [b, c, d] == [b] + [c, d];
    JoinCons(a, [b, c, d], sep);
    assert [a, b, c, d] == [a] + [b, c, d];
  }

  lemma NoComma(n: string)
    requires forall i :: 0 <= i < |n| ==> IsDigit(n[i])
    ensures !Contains(n, ", ") && !OverlapsEnd(n, ", ")
  {
    assert ',' !in n by {
      forall i | 0 <= i < |n| ensures n[i] != ',' { assert IsDigit(n[i]); }
    }
    WithoutFirstChar(n, ", ");
  }

  function HexValue(c: char): nat
    requires IsRadixDigit(c, 16)
  {
    RadixDigitValue(c, 16)
  }

  /** The byte written by two hex digits. */
  function Pair(hi: char, lo: char): (n: nat)
    requires IsRadixDigit(hi, 16) && IsRadixDigit(lo, 16)
    ensures n < 256
  {
    HexValue(hi) * 16 + HexValue(lo)
  }

  /** `#rrggbb` and `rrggbb` give the three bytes the digit pairs spell. */
  lemma SixDigitColour(hex: string, h: string)
    requires hex == h || hex == "#" + h
    requires |h| == 6 && AllRadixDigits(h, 16)
    ensures Channels(hex) == (Pair(h[0], h[1]), Pair(h[2], h[3]), Pair(h[4], h[5]))
  {
    StripPlain(hex, h);
    DigitChannels(h);
  }

  /** Six hex digits, however they were reached, unpack pair by pair. */
  lemma DigitChannels(h: string)
    requires |h| == 6 && AllRadixDigits(h, 16)
    ensures Unpack(ParseIntJs(h, 16)) == (Pair(h[0], h[1]), Pair(h[2], h[3]), Pair(h[4], h[5]))
  {
    assert ParseIntJs(h, 16) == Some(RadixValue(h, 16)) by {
      assert IsRadixDigit(h[1], 16);
    }
    var a, b, c := Pair(h[0], h[1]), Pair(h[2], h[3]), Pair(h[4], h[5]);
    assert RadixValue(h, 16) == a * 65536 + b * 256 + c by { SixDigitValue(h); }
    Bytes(a, b, c);
  }

  /** `#rgb` and `rgb` double each digit: every byte is 17 times its digit. */
  lemma ThreeDigitColour(hex: string, h: string)
    requires hex == h || hex == "#" + h
    requires |h| == 3 && AllRadixDigits(h, 16)
    ensures Channels(hex) == (17 * HexValue(h[0]), 17 * HexValue(h[1]), 17 * HexValue(h[2]))
  {
    StripPlain(hex, h);
    var e := Expand(h);
    assert HexDigits(hex) == e;
    assert e == [h[0], h[0], h[1], h[1], h[2], h[2]];
    DigitChannels(e);
    assert Pair(e[0], e[1]) == 17 * HexValue(h[0]);
    assert Pair(e[2], e[3]) == 17 * HexValue(h[1]);
    assert Pair(e[4], e[5]) == 17 * HexValue(h[2]);
  }

  /** No colour at all, or a bare `#`, is black. */
  lemma EmptyIsBlack(hex: string)
    requires hex == "" || hex == "#"
    ensures Channels(hex) == (0, 0, 0)
  {
    var z := "000000";
    BlankDigits(hex);
    assert AllRadixDigits(z, 16);
    DigitChannels(z);
    assert z[0] == z[1] == z[2] == z[3] == z[4] == z[5] == '0';
    assert Pair('0', '0') == 0;
  }

  lemma BlankDigits(hex: string)
    requires hex == "" || hex == "#"
    ensures HexDigits(hex) == "000000"
  {
    if hex == "#" { assert IndexOf(hex, '#') == Some(0); }
    assert StripHash(hex) == "";
  }

  lemma StripPlain(hex: string, h: string)
    requires hex == h || hex == "#" + h
    requires AllRadixDigits(h, 16)
    ensures StripHash(hex) == h
  {
    assert '#' !in h by {
      forall i | 0 <= i < |h| ensures h[i] != '#' { assert IsRadixDigit(h[i], 16); }
    }
    if hex != h {
      assert IndexOf(hex, '#') == Some(0);
      assert hex[1..] == h;
    }
  }

  lemma SixDigitValue(h: string)
    requires |h| == 6 && AllRadixDigits(h, 16)
    ensures RadixValue(h, 16) == Pair(h[0], h[1]) * 65536 + Pair(h[2], h[3]) * 256 + Pair(h[4], h[5])
  {
    assert h[..6] == h;
    assert h[..5][..4] == h[..4] && h[..4][..3] == h[..3] && h[..3][..2] == h[..2] && h[..2][..1] == h[..1] && h[..1][..0] == [];
    assert RadixValue(h[..1], 16) == HexValue(h[0]);
    assert RadixValue(h[..2], 16) == HexValue(h[0]) * 16 + HexValue(h[1]);
    assert RadixValue(h[..3], 16) == Pair(h[0], h[1]) * 16 + HexValue(h[2]);
    assert RadixValue(h[..4], 16) == Pair(h[0], h[1]) * 256 + Pair(h[2], h[3]);
    assert RadixValue(h[..5], 16) == (Pair(h[0], h[1]) * 256 + Pair(h[2], h[3])) * 16 + HexValue(h[4]);
  }

  /** Reading the bytes back out of a 24-bit value. */
  lemma Bytes(a: nat, b: nat, c: nat)
    requires a < 256 && b < 256 && c < 256
    ensures Unpack(Some(a * 65536 + b * 256 + c)) == (a, b, c)
  {
    var v := a * 65536 + b * 256 + c;
    assert v < TwoTo32;
    assert v == (a * 256 + b) * 256 + c;
    ByteSplit(a * 256 + b, c);
    ByteSplit(a, b);
    assert v == a * 65536 + (b * 256 + c);
    TwoByteSplit(a, b * 256 + c);
  }

  /** Dividing by a byte's range splits off the low byte. */
  lemma ByteSplit(q: nat, r: nat)
    requires r < 256
    ensures (q * 256 + r) / 256 == q && (q * 256 + r) % 256 == r
  {
  }

  /** Dividing by two bytes' range splits off the low two bytes. */
  lemma TwoByteSplit(q: nat, r: nat)
    requires r < 65536
    ensures (q * 65536 + r) / 65536 == q
  {
  }

  // ---------------------------------------------------------------------
  // Fallback chart range

  /** `Math.max(m, ...values)`. */
  function MaxFrom(m: real, values: seq<real>): (r: real)
    ensures r >= m && forall i :: 0 <= i < |values| ==> values[i] <= r
    ensures r == m || exists i :: 0 <= i < |values| && values[i] == r
    decreases |values|
  {
    if values == [] then m
    else
      var rest := MaxFrom(if values[0] > m then values[0] else m, values[1..]);
      assert forall i :: 1 <= i < |values| ==> values[i] == values[1..][i - 1];
      rest
  }

  /** `Math.min(m, ...values)`. */
  function MinFrom(m: real, values: seq<real>): (r: real)
    ensures r <= m && forall i :: 0 <= i < |values| ==> r <= values[i]
    ensures r == m || exists i :: 0 <= i < |values| && values[i] == r
    decreases |values|
  {
    if values == [] then m
    else
      var rest := MinFrom(if values[0] < m then values[0] else m, values[1..]);
      assert forall i :: 1 <= i < |values| ==> values[i] == values[1..][i - 1];
      rest
  }

  /** `max = Math.max(1, ...all)` and `min = Math.min(0, ...all)` over the
      revenue and profit series together. */
  function AxisRange(revenue: seq<real>, profit: seq<real>): (r: (real, real))
  {
    (MaxFrom(1.0, revenue + profit), MinFrom(0.0, revenue + profit))
  }

  /** The range is never empty, so the plot never divides by zero, and it
      covers every value of both series. */
  lemma AxisRangeSound(revenue: seq<real>, profit: seq<real>)
    ensures var (max, min) := AxisRange(revenue, profit);
            max >= 1.0 && min <= 0.0 && max - min >= 1.0
            && (forall i :: 0 <= i < |revenue| ==> min <= revenue[i] <= max)
            && (forall i :: 0 <= i < |profit| ==> min <= profit[i] <= max)
  {
    var all := revenue + profit;
    assert forall i :: 0 <= i < |revenue| ==> revenue[i] == all[i];
    assert forall i :: 0 <= i < |profit| ==> profit[i] == all[|revenue| + i];
  }

  /** `y(v)`: the canvas row of value `v`, for an axis box starting at row
      `top` and `height` rows tall. */
  function PlotY(v: real, top: real, height: real, min: real, max: real): real
    requires max > min
  {
    top + height - (height * (v - min) / (max - min))
  }

  /** Every point of either series is drawn inside the axis box. */
  lemma PointsInsideBox(revenue: seq<real>, profit: seq<real>, top: real, height: real, v: real)
    requires height >= 0.0
    requires v in revenue || v in profit
    ensures var (max, min) := AxisRange(revenue, profit);
            max > min && top <= PlotY(v, top, height, min, max) <= top + height
  {
    AxisRangeSound(revenue, profit);
    var r := AxisRange(revenue, profit);
    assert r.1 <= v <= r.0 by {
      if v in revenue {
        var i :| 0 <= i < |revenue| && revenue[i] == v;
      } else {
        var i :| 0 <= i < |profit| && profit[i] == v;
      }
    }
    PlotYBounds(v, top, height, r.1, r.0);
  }

  lemma PlotYBounds(v: real, top: real, height: real, min: real, max: real)
    requires max > min && min <= v <= max && height >= 0.0
    ensures top <= PlotY(v, top, height, min, max) <= top + height
  {
    Scaled(height, v - min, max - min);
  }

  /** `height * a / d` lies between 0 and `height` when `a` does between 0
      and `d`. */
  lemma Scaled(height: real, a: real, d: real)
    requires height >= 0.0 && 0.0 <= a <= d && d > 0.0
    ensures 0.0 <= height * a / d <= height
  {
    var q := height * a / d;
    assert q * d == height * a;
    assert height * a <= height * d by {
      assert height * (d - a) >= 0.0;
    }
  }
}
