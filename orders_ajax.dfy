/** The string logic of the dashboard's orders page script: reading a cookie,
    building the filter query with `URLSearchParams`, and the URL the list
    is refreshed from. */
module OrdersAjax {
  import opened Basics
  import opened Text
  import opened JsText

  // ---------------------------------------------------------------------
  // getCookie

  /** What `getCookie` splits on. */
  function CookieSep(name: string): (sep: string)
    ensures sep != [] && sep[0] == ';'
  {
    "; " + name + "="
  }

  /** `getCookie(name)` on `document.cookie`; `None` is `undefined`.  The
      cookie string is prefixed with `; ` and split on `; name=`; only when
      that gives exactly two pieces is a value read, up to the next `;`.
      A cookie that is not set reads as `undefined`, and a value read never
      holds a `;`. */
  function GetCookie(cookie: string, name: string): (r: Option<string>)
    ensures !Contains("; " + cookie, CookieSep(name)) ==> r.None?
    ensures r.Some? ==> ';' !in r.value
  {
    var parts := Split("; " + cookie, CookieSep(name));
    if !Contains("; " + cookie, CookieSep(name)) then
      NoOccurrence("; " + cookie, CookieSep(name));
      assert |parts| == 1;
      None
    else if |parts| == 2 then
      var v := Split(parts[1], ";")[0];
      SplitPiecesFree(parts[1], ";");
      NoSemicolon(v);
      Some(v)
    else None
  }

  /** Text without the one-character separator `;` holds no `;`. */
  lemma NoSemicolon(v: string)
    requires !Contains(v, ";")
    ensures ';' !in v
  {
    forall j: nat | j < |v| ensures v[j] != ';'
    {
      assert v[j..j + 1] == [v[j]];
      assert !OccursAt(v, ";", j);
    }
  }

  /** The cookie is set once: the value is what follows `; name=`, read up
      to the next `;`. */
  lemma CookieFound(cookie: string, name: string, before: string, after: string)
    requires "; " + cookie == before + CookieSep(name) + after
    requires !Contains(before, CookieSep(name)) && !OverlapsEnd(before, CookieSep(name))
    requires !Contains(after, CookieSep(name))
    ensures GetCookie(cookie, name) == Some(Split(after, ";")[0])
  {
    var sep := CookieSep(name);
    assert Join([before, after], sep) == before + sep + after;
    SplitJoin([before, after], sep);
  }

  /** What "up to the next `;`" reads. */
  lemma UpToSemicolon(after: string, v: string, rest: string)
    requires ';' !in v
    requires after == v + ";" + rest || after == v
    ensures Split(after, ";")[0] == v
  {
    WithoutFirstChar(v, ";");
    if after == v {
      NoOccurrence(v, ";");
    } else {
      FirstAfterHead(v, ";", rest);
    }
  }

  /** A cookie name that occurs twice also reads as `undefined`. */
  lemma CookieRepeated(cookie: string, name: string, before: string, rest: string)
    requires "; " + cookie == before + CookieSep(name) + rest
    requires !Contains(before, CookieSep(name)) && !OverlapsEnd(before, CookieSep(name))
    requires Contains(rest, CookieSep(name))
    ensures GetCookie(cookie, name).None?
  {
    var sep := CookieSep(name);
    FirstAfterHead(before, sep, rest);
    var s := before + sep + rest;
    assert s[|before| + |sep|..] == rest;
    SplitOfContaining(rest, sep);
  }

  /** A string containing the separator splits into at least two pieces. */
  lemma SplitOfContaining(s: string, sep: string)
    requires sep != [] && Contains(s, sep)
    ensures |Split(s, sep)| >= 2
  {
  }

  // ---------------------------------------------------------------------
  // URLSearchParams

  /** The search parameters, name-value pairs in order. */
  type Params = seq<(string, string)>

  predicate HasName(ps: Params, k: string)
  {
    exists j :: 0 <= j < |ps| && ps[j].0 == k
  }

  /** `usp.set(k, v)`: the first pair named `k` takes the value `v` and the
      other pairs named `k` are removed; without one, the pair is appended. */
  function SetParam(ps: Params, k: string, v: string): (r: Params)
    ensures !HasName(ps, k) ==> r == ps + [(k, v)]
    ensures (k, v) in r
    ensures forall j :: 0 <= j < |r| && r[j].0 == k ==> r[j] == (k, v)
    ensures forall x :: x in ps && x.0 != k ==> x in r
    ensures forall x :: x in r && x.0 != k ==> x in ps
  {
    match FirstWhere(ps, (x: (string, string)) => x.0 == k)
    case None => ps + [(k, v)]
    case Some(i) =>
      var others := Filter(ps[i + 1..], (x: (string, string)) => x.0 != k);
      FilterComplete(ps[i + 1..], (x: (string, string)) => x.0 != k);
      var r := ps[..i] + [(k, v)] + others;
      assert forall x :: x in ps ==> x in ps[..i] || x == ps[i] || x in ps[i + 1..] by {
        assert ps == ps[..i] + [ps[i]] + ps[i + 1..];
      }
      assert forall j :: i < j < |r| ==> r[j].0 != k by {
        forall j | i < j < |r| ensures r[j].0 != k
        {
          assert r[j] == others[j - i - 1];
          assert r[j] in others;
        }
      }
      assert forall j :: 0 <= j < i ==> r[j] == ps[j];
      r
  }

  /** The page's filter controls: the values of `#statusFilter`,
      `#sortSelect` and the search form's `q` field, `None` where the page
      has no such control. */
  datatype Controls = Controls(status: Option<string>, sort: Option<string>, q: Option<string>)

  function StatusOf(c: Controls): string { if c.status.Some? then c.status.value else "all" }

  function SortOf(c: Controls): string { if c.sort.Some? then c.sort.value else "newest" }

  function QueryOf(c: Controls): string { if c.q.Some? then c.q.value else "" }

  /** `params()` before serialisation: the three `set` calls in turn.  A
      parameter is sent only when it differs from the list's default, and
      the names come in the order status, sort, q. */
  function ParamsOf(c: Controls): (r: Params)
    ensures r == (if StatusOf(c) != "" && StatusOf(c) != "all" then [("status", StatusOf(c))] else [])
               + (if SortOf(c) != "" && SortOf(c) != "newest" then [("sort", SortOf(c))] else [])
               + (if QueryOf(c) != "" then [("q", QueryOf(c))] else [])
  {
    var status, sort, q := StatusOf(c), SortOf(c), QueryOf(c);
    var usp: Params := [];
    var usp1 := if status != "" && status != "all" then SetParam(usp, "status", status) else usp;
    assert !HasName(usp1, "sort") && !HasName(usp1, "q");
    var usp2 := if sort != "" && sort != "newest" then SetParam(usp1, "sort", sort) else usp1;
    assert !HasName(usp2, "q");
    if q != "" then SetParam(usp2, "q", q) else usp2
  }

  /** With no controls on the page, or all at their defaults, nothing is
      sent. */
  lemma DefaultsSendNothing(c: Controls)
    requires StatusOf(c) == "all" && SortOf(c) == "newest" && QueryOf(c) == ""
    ensures ParamsOf(c) == []
  {
  }

  // ---------------------------------------------------------------------
  // application/x-www-form-urlencoded serialisation

  /** The UTF-8 bytes of one character. */
  function Utf8(c: char): (bs: seq<nat>)
    ensures 1 <= |bs| <= 4 && forall i :: 0 <= i < |bs| ==> bs[i] < 256
    ensures c as int < 0x80 ==> bs == [c as int]
  {
    var n := c as int;
    if n < 0x80 then [n]
    else if n < 0x800 then [0xC0 + n / 64, 0x80 + n % 64]
    else if n < 0x10000 then [0xE0 + n / 4096, 0x80 + (n / 64) % 64, 0x80 + n % 64]
    else [0xF0 + n / 262144, 0x80 + (n / 4096) % 64, 0x80 + (n / 64) % 64, 0x80 + n % 64]
  }

  function Utf8Bytes(s: string): (bs: seq<nat>)
    ensures forall i :: 0 <= i < |bs| ==> bs[i] < 256
  {
    if s == [] then [] else Utf8(s[0]) + Utf8Bytes(s[1..])
  }

  /** The bytes the serialiser writes as themselves. */
  predicate Unreserved(b: nat)
  {
    b == 0x2A || b == 0x2D || b == 0x2E || b == 0x5F
    || (0x30 <= b <= 0x39) || (0x41 <= b <= 0x5A) || (0x61 <= b <= 0x7A)
  }

  function UpperHex(d: nat): (c: char)
    requires d < 16
    ensures IsRadixDigit(c, 16) && RadixDigitValue(c, 16) == d
  {
    if d < 10 then ('0' as int + d) as char else ('A' as int + d - 10) as char
  }

  /** One byte: unreserved bytes as themselves, a space as `+`, anything
      else as `%XY` in upper-case hex. */
  function EncodeByte(b: nat): (s: string)
    requires b < 256
    ensures '&' !in s && '=' !in s && s != []
  {
    if Unreserved(b) then [b as char]
    else if b == 0x20 then "+"
    else ['%', UpperHex(b / 16), UpperHex(b % 16)]
  }

  function EncodeBytes(bs: seq<nat>): (s: string)
    requires forall i :: 0 <= i < |bs| ==> bs[i] < 256
    ensures '&' !in s && '=' !in s
  {
    if bs == [] then "" else EncodeByte(bs[0]) + EncodeBytes(bs[1..])
  }

  /** The serialiser applied to a name or a value. */
  function FormEncode(s: string): (r: string)
    ensures '&' !in r && '=' !in r
  {
    EncodeBytes(Utf8Bytes(s))
  }

  /** `usp.toString()`: `name=value` pairs, each side encoded, joined by
      `&`. The query is empty exactly when there is no parameter, and
      otherwise splits back on `&` into one piece per parameter, in
      order. */
  function Serialize(ps: Params): (query: string)
    ensures query == "" <==> ps == []
    ensures ps != [] ==> Split(query, "&") == Pieces(ps)
  {
    if ps == [] then ""
    else
      PiecesJoinSplit(ps);
      PiecesJoinNonEmpty(ps);
      Join(Pieces(ps), "&")
  }

  function Pieces(ps: Params): (r: seq<string>)
    ensures |r| == |ps|
    ensures forall i :: 0 <= i < |ps| ==> r[i] == FormEncode(ps[i].0) + "=" + FormEncode(ps[i].1)
  {
    if ps == [] then [] else [FormEncode(ps[0].0) + "=" + FormEncode(ps[0].1)] + Pieces(ps[1..])
  }

  /** A decoder for the serialiser's output, as a server reads it: `+` is a
      space byte, `%XY` the byte with that hex value, any other character
      its own code. */
  function DecodeBytes(s: string): (bs: seq<nat>)
    decreases |s|
  {
    if s == [] then []
    else if s[0] == '+' then [0x20] + DecodeBytes(s[1..])
    else if s[0] == '%' && |s| >= 3 && IsRadixDigit(s[1], 16) && IsRadixDigit(s[2], 16) then
      [RadixDigitValue(s[1], 16) * 16 + RadixDigitValue(s[2], 16)] + DecodeBytes(s[3..])
    else [s[0] as int] + DecodeBytes(s[1..])
  }

  lemma DecodeEncodeByte(b: nat, rest: string)
    requires b < 256
    ensures DecodeBytes(EncodeByte(b) + rest) == [b] + DecodeBytes(rest)
  {
    var e := EncodeByte(b);
    if Unreserved(b) {
      assert (e + rest)[1..] == rest;
    } else if b == 0x20 {
      assert (e + rest)[1..] == rest;
    } else {
      assert (e + rest)[3..] == rest;
      assert (b / 16) * 16 + b % 16 == b;
    }
  }

  /** Decoding the serialised bytes gives them back. */
  lemma {:induction false} DecodeEncodeBytes(bs: seq<nat>)
    requires forall i :: 0 <= i < |bs| ==> bs[i] < 256
    ensures DecodeBytes(EncodeBytes(bs)) == bs
  {
    if bs != [] {
      DecodeEncodeBytes(bs[1..]);
      DecodeEncodeByte(bs[0], EncodeBytes(bs[1..]));
    }
  }

  /** So a name or value decodes back to its UTF-8 bytes. */
  lemma DecodeFormEncode(s: string)
    ensures DecodeBytes(FormEncode(s)) == Utf8Bytes(s)
  {
    DecodeEncodeBytes(Utf8Bytes(s));
  }

  /** A name or value made of letters, digits and `*-._` is sent as it is. */
  lemma {:induction false} PlainIsUnchanged(s: string)
    requires forall i :: 0 <= i < |s| ==> s[i] as int < 0x80 && Unreserved(s[i] as int)
    ensures FormEncode(s) == s
  {
    if s != [] {
      PlainIsUnchanged(s[1..]);
      assert Utf8Bytes(s) == [s[0] as int] + Utf8Bytes(s[1..]);
    }
  }

  /** The query splits back on `&` into one encoded `name=value` piece per
      parameter, in order, and each piece splits on `=` into the encoded
      name and value. */
  lemma SerializeSplits(ps: Params)
    requires ps != []
    ensures Split(Serialize(ps), "&") == Pieces(ps)
    ensures forall i :: 0 <= i < |ps| ==> Split(Pieces(ps)[i], "=") == [FormEncode(ps[i].0), FormEncode(ps[i].1)]
  {
    forall i | 0 <= i < |ps| ensures Split(Pieces(ps)[i], "=") == [FormEncode(ps[i].0), FormEncode(ps[i].1)]
    {
      PieceSplits(ps[i].0, ps[i].1);
    }
  }

  lemma PiecesJoinSplit(ps: Params)
    requires ps != []
    ensures Split(Join(Pieces(ps), "&"), "&") == Pieces(ps)
  {
    var pieces := Pieces(ps);
    assert forall k :: 0 <= k < |pieces| ==> !Contains(pieces[k], "&") && !OverlapsEnd(pieces[k], "&") by {
      forall k | 0 <= k < |pieces| ensures !Contains(pieces[k], "&") && !OverlapsEnd(pieces[k], "&")
      {
        PieceFree(ps[k].0, ps[k].1);
      }
    }
    SplitJoin(pieces, "&");
  }

  lemma PieceFree(name: string, value: string)
    ensures var p := FormEncode(name) + "=" + FormEncode(value);
            !Contains(p, "&") && !OverlapsEnd(p, "&")
  {
    var p := FormEncode(name) + "=" + FormEncode(value);
    assert '&' !in p;
    WithoutFirstChar(p, "&");
  }

  lemma PieceSplits(name: string, value: string)
    ensures Split(FormEncode(name) + "=" + FormEncode(value), "=") == [FormEncode(name), FormEncode(value)]
  {
    var n, v := FormEncode(name), FormEncode(value);
    WithoutFirstChar(n, "=");
    WithoutFirstChar(v, "=");
    assert Join([n, v], "=") == n + "=" + v;
    SplitJoin([n, v], "=");
  }

  /** `params()`: empty exactly when no parameter is sent. */
  function QueryString(c: Controls): (query: string)
    ensures query == "" <==> ParamsOf(c) == []
  {
    Serialize(ParamsOf(c))
  }

  // ---------------------------------------------------------------------
  // refreshList

  const PartialPath: string := "/dashboard/orders/partial/"

  /** The URL `refreshList` fetches. */
  function RefreshUrl(query: string): (url: string)
    ensures query == "" ==> url == PartialPath
    ensures query != "" ==> url == PartialPath + "?" + query
  {
    PartialPath + (if query != "" then "?" + query else "")
  }

  /** The URL carries a `?` exactly when there is a query to send. */
  lemma RefreshUrlQuestionMark(query: string)
    ensures '?' in RefreshUrl(query) <==> query != ""
  {
    assert '?' !in PartialPath;
    if query != "" {
      assert RefreshUrl(query)[|PartialPath|] == '?';
    }
  }

  lemma PiecesJoinNonEmpty(ps: Params)
    requires ps != []
    ensures Join(Pieces(ps), "&") != ""
  {
    var pieces := Pieces(ps);
    assert pieces[0][|FormEncode(ps[0].0)|] == '=';
    if |pieces| > 1 {
      JoinCons(pieces[0], pieces[1..], "&");
      assert [pieces[0]] + pieces[1..] == pieces;
    }
  }
}
