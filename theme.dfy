/** The storefront's main page script, in the parts that carry logic: the
    dark/light theme toggle and its persistence, the CSRF token lookup of
    the cart's remove links, the quantity input guard, and the product
    image magnifier's lens size and zoom. */
module Theme {
  import opened Basics
  import opened Text
  import opened JsText

  // ---------------------------------------------------------------------
  // Theme toggle

  /** `toggleTheme`'s choice: `dark` becomes `light`, anything else `dark`. */
  function Toggled(t: string): (r: string)
    ensures r == "light" || r == "dark"
    ensures r == "light" <==> t == "dark"
  {
    if t == "dark" then "light" else "dark"
  }

  /** Toggling twice from either theme comes back to it. */
  lemma ToggledTwice(t: string)
    requires t == "light" || t == "dark"
    ensures Toggled(Toggled(t)) == t
  {
  }

  /** The icon class the toggle shows: a sun while dark (click for light),
      a moon otherwise. */
  function IconFor(theme: string): (c: string)
    ensures theme == "dark" ==> c == "bi-brightness-high"
    ensures theme != "dark" ==> c == "bi-moon-stars"
  {
    if theme == "dark" then "bi-brightness-high" else "bi-moon-stars"
  }

  /** The page state the theme code touches.  `stored` is
      `localStorage['theme']`; `storageWorks` is false when every access to
      `localStorage` throws; `dataTheme` is `<html data-theme>`; the two
      flags are the `disabled` properties of the Bootswatch stylesheets,
      present when `hasDarkLink`/`hasLightLink`; `icons` are the theme
      classes of the toggle buttons' icons. */
  class ThemePage {
    var stored: Option<string>
    const storageWorks: bool
    var dataTheme: Option<string>
    const hasDarkLink: bool
    const hasLightLink: bool
    var darkDisabled: bool
    var lightDisabled: bool
    var icons: seq<string>

    constructor (stored: Option<string>, storageWorks: bool, hasDarkLink: bool, hasLightLink: bool, icons: seq<string>)
      ensures this.stored == stored && this.storageWorks == storageWorks && this.dataTheme == None
      ensures this.hasDarkLink == hasDarkLink && this.hasLightLink == hasLightLink
      ensures !this.darkDisabled && !this.lightDisabled && this.icons == icons
    {
      this.stored := stored;
      this.storageWorks := storageWorks;
      this.dataTheme := None;
      this.hasDarkLink := hasDarkLink;
      this.hasLightLink := hasLightLink;
      this.darkDisabled := false;
      this.lightDisabled := false;
      this.icons := icons;
    }

    /** `currentTheme()`: the stored theme, or `light` when none is stored
        or storage throws. */
    function CurrentTheme(): (t: string)
      reads this
      ensures t != ""
      ensures !storageWorks ==> t == "light"
      ensures storageWorks && stored.Some? && stored.value != "" ==> t == stored.value
    {
      if !storageWorks then "light"
      else if stored.Some? && stored.value != "" then stored.value
      else "light"
    }

    /** `applyTheme(theme)`: store the choice when storage works, set the
        attribute, enable exactly one stylesheet, and switch every icon. */
    method ApplyTheme(theme: string)
      modifies this
      ensures stored == (if storageWorks then Some(theme) else old(stored))
      ensures dataTheme == Some(theme)
      ensures darkDisabled == (if hasDarkLink then theme == "light" else old(darkDisabled))
      ensures lightDisabled == (if hasLightLink then theme != "light" else old(lightDisabled))
      ensures |icons| == |old(icons)| && forall i :: 0 <= i < |icons| ==> icons[i] == IconFor(theme)
      ensures storageWorks && theme != "" ==> CurrentTheme() == theme
    {
      if storageWorks {
        stored := Some(theme);
      }
      dataTheme := Some(theme);
      if hasDarkLink {
        darkDisabled := theme == "light";
      }
      if hasLightLink {
        lightDisabled := theme != "light";
      }
      var updated: seq<string> := [];
      for i := 0 to |icons|
        invariant |updated| == i
        invariant forall j :: 0 <= j < i ==> updated[j] == IconFor(theme)
      {
        updated := updated + [IconFor(theme)];
      }
      icons := updated;
    }

    /** The `DOMContentLoaded` handler's first step: show the current
        theme. */
    method Init()
      modifies this
      ensures dataTheme == Some(old(CurrentTheme()))
      ensures CurrentTheme() == old(CurrentTheme())
    {
      ghost var before := CurrentTheme();
      ApplyTheme(CurrentTheme());
      assert !storageWorks ==> CurrentTheme() == "light" == before;
    }

    /** `toggleTheme()`, as written: it flips the theme read back from
        storage.  When storage works the page and storage agree and the
        theme flips; when storage throws, `currentTheme` is always `light`,
        so every click shows `dark` again. */
    method ToggleTheme()
      modifies this
      ensures dataTheme == Some(Toggled(old(CurrentTheme())))
      ensures storageWorks ==> CurrentTheme() == Toggled(old(CurrentTheme()))
      ensures !storageWorks ==> dataTheme == Some("dark") && stored == old(stored)
    {
      var t := CurrentTheme();
      ApplyTheme(if t == "dark" then "light" else "dark");
    }

    /** The theme on screen: the attribute once set, else what storage
        says. */
    function ShownTheme(): (t: string)
      reads this
      ensures dataTheme.Some? ==> t == dataTheme.value
    {
      if dataTheme.Some? then dataTheme.value else CurrentTheme()
    }

    /** The toggle as intended: flip the theme on screen, which storage
        follows when it works. */
    method ToggleShownTheme()
      modifies this
      ensures dataTheme == Some(Toggled(old(ShownTheme())))
      ensures ShownTheme() == Toggled(old(ShownTheme()))
      ensures storageWorks ==> CurrentTheme() == ShownTheme()
    {
      var t := ShownTheme();
      ApplyTheme(if t == "dark" then "light" else "dark");
    }
  }

  /** With storage throwing, two clicks of the toggle as written leave the
      page dark. */
  method TwoTogglesWithoutStorage() returns (shown: Option<string>)
    ensures shown == Some("dark")
  {
    var page := new ThemePage(None, false, true, true, []);
    page.Init();
    page.ToggleTheme();
    page.ToggleTheme();
    shown := page.dataTheme;
  }

  /** With the intended toggle, two clicks from a fresh visit bring the
      page back to light whether or not storage works. */
  method TwoShownToggles(storageWorks: bool) returns (shown: Option<string>)
    ensures shown == Some("light")
  {
    var page := new ThemePage(None, storageWorks, true, true, []);
    page.Init();
    page.ToggleShownTheme();
    page.ToggleShownTheme();
    shown := page.dataTheme;
  }

  // ---------------------------------------------------------------------
  // CSRF token for the cart's remove links

  const CsrfName: string := "csrftoken="

  predicate IsCsrfPart(p: string)
  {
    StartsWith(Trim(JavaScript, p), CsrfName)
  }

  /** `p.substring(name.length)` of the trimmed part. */
  function CsrfValue(part: string): string
    requires IsCsrfPart(part)
  {
    Trim(JavaScript, part)[|CsrfName|..]
  }

  /** The first cookie part that, trimmed, starts with `csrftoken=`, or
      `|parts|` when none does. */
  function CsrfIndex(parts: seq<string>): (k: nat)
    ensures k <= |parts|
    ensures forall j :: 0 <= j < k ==> !IsCsrfPart(parts[j])
    ensures k < |parts| ==> IsCsrfPart(parts[k])
  {
    match FirstWhere(parts, IsCsrfPart)
    case None => |parts|
    case Some(i) => i
  }

  /** The first matching part is the one `CsrfIndex` names. */
  lemma {:induction false} CsrfIndexAt(parts: seq<string>, i: nat)
    requires i <= |parts| && forall j :: 0 <= j < i ==> !IsCsrfPart(parts[j])
    requires i < |parts| ==> IsCsrfPart(parts[i])
    ensures CsrfIndex(parts) == i
  {
    if i > 0 {
      assert !IsCsrfPart(parts[0]);
      forall j | 0 <= j < i - 1 ensures !IsCsrfPart(parts[1..][j]) { assert parts[1..][j] == parts[j + 1]; }
      CsrfIndexAt(parts[1..], i - 1);
    }
  }

  /** `getCsrfToken()`: the rest of the first trimmed `;`-part of the cookie
      that starts with `csrftoken=`; otherwise the value of the hidden
      `csrfmiddlewaretoken` input (`None` when the page has none), else the
      empty string. */
  method GetCsrfToken(cookie: string, hiddenInput: Option<string>) returns (token: string)
    ensures var parts := Split(cookie, ";");
            var k := CsrfIndex(parts);
            token == if k < |parts| then CsrfValue(parts[k])
                     else if hiddenInput.Some? then hiddenInput.value else ""
  {
    var parts := Split(cookie, ";");
    var first := FindFirst(parts, IsCsrfPart);
    if first.Some? {
      token := CsrfValue(parts[first.value]);
    } else if hiddenInput.Some? {
      token := hiddenInput.value;
    } else {
      token := "";
    }
  }

  /** A cookie that begins with the CSRF cookie yields its value. */
  lemma CsrfLeading(cookie: string, v: string, rest: string)
    requires ';' !in v && (v == [] || !IsSpace(JavaScript, v[|v| - 1]))
    requires cookie == CsrfName + v || cookie == CsrfName + v + ";" + rest
    ensures var parts := Split(cookie, ";");
            CsrfIndex(parts) == 0 && CsrfValue(parts[0]) == v
  {
    var parts := Split(cookie, ";");
    var head := CsrfName + v;
    assert parts[0] == head by { CsrfFirstPiece(cookie, v, rest); }
    assert Trim(JavaScript, head) == head && IsCsrfPart(head) && head[|CsrfName|..] == v by { CsrfHeadTrimmed(v); }
    CsrfIndexAt(parts, 0);
  }

  lemma CsrfFirstPiece(cookie: string, v: string, rest: string)
    requires ';' !in v
    requires cookie == CsrfName + v || cookie == CsrfName + v + ";" + rest
    ensures Split(cookie, ";")[0] == CsrfName + v
  {
    var head := CsrfName + v;
    assert ';' !in head by {
      forall i | 0 <= i < |head| ensures head[i] != ';'
      {
        if i >= |CsrfName| { assert head[i] == v[i - |CsrfName|]; }
      }
    }
    WithoutFirstChar(head, ";");
    if cookie == head {
      NoOccurrence(head, ";");
    } else {
      FirstAfterHead(head, ";", rest);
      assert cookie[..|head|] == head;
    }
  }

  lemma CsrfHeadTrimmed(v: string)
    requires v == [] || !IsSpace(JavaScript, v[|v| - 1])
    ensures Trim(JavaScript, CsrfName + v) == CsrfName + v && IsCsrfPart(CsrfName + v)
    ensures (CsrfName + v)[|CsrfName|..] == v
  {
    var head := CsrfName + v;
    assert !IsSpace(JavaScript, head[0]) && !IsSpace(JavaScript, head[|head| - 1]);
    TrimOfDigits(JavaScript, head);
  }

  // ---------------------------------------------------------------------
  // Quantity input

  /** The cart quantity input's `input` handler: the value is read with
      `parseInt(value || '1', 10)` and reset to `1` when that is `NaN` or
      below 1; otherwise it is left as typed. */
  function QuantityAfterInput(value: string): (r: string)
    ensures r == "1" || r == value
  {
    var v := ParseIntJs(if value == "" then "1" else value, 10);
    if v.None? || v.value < 1 then "1" else value
  }

  /** After the handler the field always reads as at least one item. */
  lemma QuantityAtLeastOne(value: string)
    ensures var r := QuantityAfterInput(value);
            var n := ParseIntJs(if r == "" then "1" else r, 10);
            n.Some? && n.value >= 1
  {
    OneParses();
  }

  /** The handler changes nothing the second time. */
  lemma QuantityIdempotent(value: string)
    ensures QuantityAfterInput(QuantityAfterInput(value)) == QuantityAfterInput(value)
  {
    OneParses();
  }

  /** An empty field reads as 1 and so is left empty. */
  lemma EmptyQuantityKept()
    ensures QuantityAfterInput("") == ""
  {
    OneParses();
  }

  lemma OneParses()
    ensures ParseIntJs("1", 10) == Some(1)
  {
    var one := "1";
    assert AllRadixDigits(one, 10);
    assert one[..0] == [];
  }

  // ---------------------------------------------------------------------
  // Magnifier

  /** `Math.max(120, Math.min(220, Math.floor(width * 0.25)))`, the lens
      side for an image `width` pixels wide. */
  function LensSize(width: nat): (side: int)
    ensures 120 <= side <= 220
    ensures 480 <= width < 884 ==> side == width / 4
  {
    Clamp(width / 4, 120, 220)
  }

  /** A wider image never gets a smaller lens. */
  lemma LensSizeMonotone(w1: nat, w2: nat)
    requires w1 <= w2
    ensures LensSize(w1) <= LensSize(w2)
  {
  }

  const MinZoom: real := 1.5
  const MaxZoom: real := 4.0

  /** One wheel step: `Math.sign(deltaY) < 0` zooms in by 0.2, anything
      else (a zero delta too) zooms out by 0.2, then the zoom is clamped. */
  function NextZoom(zoom: real, deltaY: real): (z: real)
    ensures MinZoom <= z <= MaxZoom
    ensures deltaY < 0.0 && zoom + 0.2 >= MinZoom ==> z == (if zoom + 0.2 <= MaxZoom then zoom + 0.2 else MaxZoom)
    ensures deltaY >= 0.0 && zoom - 0.2 <= MaxZoom ==> z == (if zoom - 0.2 >= MinZoom then zoom - 0.2 else MinZoom)
  {
    var z := zoom + (if deltaY < 0.0 then 0.2 else -0.2);
    if z > MaxZoom then MaxZoom else if z < MinZoom then MinZoom else z
  }

  /** Within range, scrolling up never zooms out and scrolling down never
      zooms in. */
  lemma NextZoomDirection(zoom: real, deltaY: real)
    requires MinZoom <= zoom <= MaxZoom
    ensures deltaY < 0.0 ==> NextZoom(zoom, deltaY) >= zoom
    ensures deltaY >= 0.0 ==> NextZoom(zoom, deltaY) <= zoom
  {
  }

  /** The magnifier attached to one product image. */
  class Magnifier {
    var zoom: real

    predicate Valid()
      reads this
    {
      MinZoom <= zoom <= MaxZoom
    }

    constructor ()
      ensures zoom == 2.0 && Valid()
    {
      zoom := 2.0;
    }

    /** The wheel handler's zoom update. */
    method Wheel(deltaY: real)
      modifies this
      ensures zoom == NextZoom(old(zoom), deltaY)
      ensures Valid()
    {
      var delta := if deltaY < 0.0 then -1.0 else if deltaY > 0.0 then 1.0 else 0.0;
      zoom := zoom + (if delta < 0.0 then 0.2 else -0.2);
      zoom := if zoom > MaxZoom then MaxZoom else if zoom < MinZoom then MinZoom else zoom;
    }
  }
}
