/** Image presets, the fit each one performs, and the text that configures the image engine with them. */
module MediaSpec {
  import opened Contract
  import opened Text
  import opened Decimal
  import opened Fit
  import P = Positional

  /** The configured presets, or a bare intent name that no preset carries. */
  datatype Preset =
    | LightboxPreset | LightboxMobile | ThumbnailPreset | GridPreset
    | Zoom1Preset | Zoom2Preset
    | Zoom3NearSquare | Zoom3Standard | Zoom3Wide
    | Unlisted(intent: Intent)

  function PresetName(p: Preset): (name: string)
    ensures Bare(name) && |name| >= 4
  {
    match p
    case LightboxPreset => "lightbox"
    case LightboxMobile => "lightbox_mobile"
    case ThumbnailPreset => "thumbnail"
    case GridPreset => "grid"
    case Zoom1Preset => "zoom_1"
    case Zoom2Preset => "zoom_2"
    case Zoom3NearSquare => "zoom_3_nearsquare"
    case Zoom3Standard => "zoom_3_standard"
    case Zoom3Wide => "zoom_3_wide"
    case Unlisted(intent) => IntentName(intent)
  }

  function PresetWidth(p: Preset): Option<nat> {
    match p
    case LightboxPreset => Some(2048)
    case LightboxMobile => Some(1400)
    case ThumbnailPreset => Some(400)
    case GridPreset => Some(800)
    case Zoom1Preset => Some(3072)
    case Zoom2Preset => Some(4096)
    case Zoom3NearSquare => Some(4898)
    case Zoom3Standard => Some(5477)
    case Zoom3Wide => Some(6197)
    case Unlisted(_) => None
  }

  predicate Lossless(p: Preset) {
    p in {Zoom1Preset, Zoom2Preset, Zoom3NearSquare, Zoom3Standard, Zoom3Wide}
  }

  const PRESET_ORDER: seq<Preset> := [
    LightboxPreset, LightboxMobile, ThumbnailPreset, GridPreset,
    Zoom1Preset, Zoom2Preset, Zoom3NearSquare, Zoom3Standard, Zoom3Wide]

  function LongEdge(w: int, h: int): int {
    if h > w then h else w
  }

  function ShortEdge(w: int, h: int): int {
    if h > w then w else h
  }

  /** The aspect band of a probed source; anything unprobed takes the tightest one. */
  function Zoom3PresetForAspect(w: int, h: int): Preset {
    if w <= 0 || h <= 0 then Zoom3NearSquare
    else
      var r := LongEdge(w, h) as real / ShortEdge(w, h) as real;
      if r < 1.25 then Zoom3NearSquare
      else if r < 1.6 then Zoom3Standard
      else Zoom3Wide
  }

  function ImagePreset(intent: Intent, device: Device, srcW: Option<int>, srcH: Option<int>): Preset {
    if device.Mobile? && intent in {Lightbox, Zoom1, Zoom2, Zoom3} then LightboxMobile
    else
      match intent
      case Zoom3 =>
        Zoom3PresetForAspect(if srcW.Some? then srcW.value else 0, if srcH.Some? then srcH.value else 0)
      case Lightbox => LightboxPreset
      case Thumbnail => ThumbnailPreset
      case Grid => GridPreset
      case Zoom1 => Zoom1Preset
      case Zoom2 => Zoom2Preset
      case _ => Unlisted(intent)
  }

  function FitOutputDims(srcW: Option<int>, srcH: Option<int>, preset: Preset): Option<(int, int)> {
    if PresetWidth(preset).None? || srcW.None? || srcH.None? || srcW.value <= 0 || srcH.value <= 0 then None
    else Some(FitBox(srcW.value, srcH.value, PresetWidth(preset).value))
  }

  // ---- area and memory bounds ---------------------------------------------

  predicate ImageIntent(intent: Intent) {
    intent in {Thumbnail, Grid, Lightbox, Zoom1, Zoom2, Zoom3}
  }

  function BudgetBytes(device: Device): nat {
    match device
    case Mobile => 24 * 1024 * 1024
    case Desktop => 96 * 1024 * 1024
  }

  function Pixels(dims: (int, int)): int {
    dims.0 * dims.1
  }

  /** What the image engine renders for a source that is `w` by `h`, given what was probed of it. */
  function Rendered(intent: Intent, device: Device, probed: bool, w: int, h: int): (int, int)
    requires ImageIntent(intent) && w > 0 && h > 0
  {
    var preset := ImagePreset(intent, device, if probed then Some(w) else None, if probed then Some(h) else None);
    FitBox(w, h, PresetWidth(preset).value)
  }

  lemma AspectBands(w: int, h: int)
    requires w > 0 && h > 0
    ensures Zoom3PresetForAspect(w, h) ==
      (if 4 * LongEdge(w, h) < 5 * ShortEdge(w, h) then Zoom3NearSquare
       else if 5 * LongEdge(w, h) < 8 * ShortEdge(w, h) then Zoom3Standard
       else Zoom3Wide)
  {
    RatioBelow(LongEdge(w, h), ShortEdge(w, h), 5, 4);
    RatioBelow(LongEdge(w, h), ShortEdge(w, h), 8, 5);
    assert 5.0 / 4.0 == 1.25 && 8.0 / 5.0 == 1.6;
  }

  lemma RatioBelow(a: int, b: int, p: int, q: int)
    requires b > 0 && q > 0
    ensures a as real / b as real < p as real / q as real <==> q * a < p * b
  {
    var x, y := a as real / b as real, p as real / q as real;
    assert x * b as real == a as real && y * q as real == p as real;
    assert (x * b as real) * q as real == (q * a) as real;
    assert (y * q as real) * b as real == (p * b) as real;
    ScaleReal(x, y, b as real * q as real);
    assert x * (b as real * q as real) == (x * b as real) * q as real;
    assert y * (b as real * q as real) == (y * q as real) * b as real;
  }

  lemma ScaleReal(x: real, y: real, k: real)
    requires k > 0.0
    ensures x < y <==> x * k < y * k
  {
  }

  /** Which sources overshoot the 24-megapixel wall on the deepest rung, in whole numbers. */
  predicate OvershootsWall(w: int, h: int) {
    var l, s := LongEdge(w, h), ShortEdge(w, h);
    if 5 * l < 8 * s then 4 * l >= 5 * s && l > 5477 && 10954 * s >= 8763 * l
    else l >= 6197 && 12394 * s >= 7745 * l
  }

  /** The deepest rung stays within 24,000,981 pixels; the stated 24,000,000 fails exactly where the source says. */
  lemma DeepestRungArea(w: int, h: int)
    requires w > 0 && h > 0
    ensures Pixels(Rendered(Zoom3, Desktop, true, w, h)) <= 24_000_981
    ensures Pixels(Rendered(Zoom3, Desktop, true, w, h)) > 24_000_000 <==> OvershootsWall(w, h)
  {
    AspectBands(w, h);
    var l, s := LongEdge(w, h), ShortEdge(w, h);
    if 4 * l < 5 * s {
      FitBounds(w, h, 4898);
      var d := FitBox(w, h, 4898);
      Product(d.0, d.1, 4898, 4898);
    } else if 5 * l < 8 * s {
      StandardBand(w, h);
    } else {
      WideBand(w, h);
    }
  }

  lemma StandardBand(w: int, h: int)
    requires w > 0 && h > 0
    requires 4 * LongEdge(w, h) >= 5 * ShortEdge(w, h) && 5 * LongEdge(w, h) < 8 * ShortEdge(w, h)
    ensures Pixels(FitBox(w, h, 5477)) <= 24_000_981
    ensures Pixels(FitBox(w, h, 5477)) > 24_000_000 <==> OvershootsWall(w, h)
  {
    var l, s := LongEdge(w, h), ShortEdge(w, h);
    FitEdges(w, h, 5477);
    if l > 5477 {
      var o := Shrunk(s, 5477, l);
      ShrunkAtLeast(s, 5477, l, 4382);
      ShrunkAtLeast(s, 5477, l, 4383);
      assert o <= 4382;
      assert 5477 * 4382 == 24_000_214 && 5477 * 4381 == 23_994_737;
      Product(5477, o, 5477, 4382);
      if o <= 4381 {
        Product(5477, o, 5477, 4381);
      }
    } else {
      Product(l, s, 5477, 4381);
    }
  }

  lemma WideBand(w: int, h: int)
    requires w > 0 && h > 0
    requires 5 * LongEdge(w, h) >= 8 * ShortEdge(w, h)
    ensures Pixels(FitBox(w, h, 6197)) <= 24_000_981
    ensures Pixels(FitBox(w, h, 6197)) > 24_000_000 <==> OvershootsWall(w, h)
  {
    var l, s := LongEdge(w, h), ShortEdge(w, h);
    FitEdges(w, h, 6197);
    if l > 6197 {
      var o := Shrunk(s, 6197, l);
      ShrunkAtLeast(s, 6197, l, 3873);
      ShrunkAtLeast(s, 6197, l, 3874);
      assert o <= 3873;
      Product(6197, o, 6197, 3873);
      if o <= 3872 {
        Product(6197, o, 6197, 3872);
      }
    } else if l == 6197 {
      Product(l, s, 6197, 3873);
      if s <= 3872 {
        Product(l, s, 6197, 3872);
      }
    } else {
      Product(l, s, 6196, 3872);
    }
  }

  /** The bound is met with equality, so no smaller one holds. */
  lemma DeepestRungAreaIsTight()
    ensures Pixels(Rendered(Zoom3, Desktop, true, 6197, 3873)) == 24_000_981
  {
    AspectBands(6197, 3873);
  }

  /** Every image rendition decodes (four bytes a pixel) within its device's memory budget, probed or not. */
  lemma DecodesWithinBudget(intent: Intent, device: Device, probed: bool, w: int, h: int)
    requires ImageIntent(intent) && w > 0 && h > 0
    ensures 4 * Pixels(Rendered(intent, device, probed, w, h)) <= BudgetBytes(device)
    ensures BudgetBytes(device) == if device.Mobile? then 25_165_824 else 100_663_296
  {
    if intent.Zoom3? && device.Desktop? && probed {
      DeepestRungArea(w, h);
    } else {
      var preset := ImagePreset(intent, device, if probed then Some(w) else None, if probed then Some(h) else None);
      var cap := PresetWidth(preset).value;
      FitBounds(w, h, cap);
      var d := FitBox(w, h, cap);
      Product(d.0, d.1, cap, cap);
      assert 4 * (4898 * 4898) <= 96 * 1024 * 1024;
      assert 4 * (1400 * 1400) <= 24 * 1024 * 1024;
    }
  }

  /** Past 4096 pixels each desktop rung shows strictly more than the one before. */
  lemma RungsIncrease(w: int, h: int)
    requires w > 0 && h > 0 && LongEdge(w, h) > 4096
    ensures Pixels(Rendered(Zoom1, Desktop, true, w, h))
          < Pixels(Rendered(Zoom2, Desktop, true, w, h))
          < Pixels(Rendered(Zoom3, Desktop, true, w, h))
  {
    BiggerCapMorePixels(w, h, 3072, 4096);
    var cap3 := PresetWidth(Zoom3PresetForAspect(w, h)).value;
    BiggerCapMorePixels(w, h, 4096, cap3);
  }

  lemma BiggerCapMorePixels(w: int, h: int, small: nat, large: nat)
    requires w > 0 && h > 0 && 0 < small < large && LongEdge(w, h) > small
    ensures Pixels(FitBox(w, h, small)) < Pixels(FitBox(w, h, large))
  {
    var l, s := LongEdge(w, h), ShortEdge(w, h);
    PixelsByEdge(w, h, small);
    PixelsByEdge(w, h, large);
    var o := Shrunk(s, small, l);
    var o', l' := if l > large then Shrunk(s, large, l) else s, if l > large then large else l;
    if l > large {
      ShrunkMonotone(s, small, large, l);
    } else {
      ShrunkBounds(s, small, l);
    }
    MoreOfBoth(small, o, l', o');
  }

  lemma MoreOfBoth(a: int, b: int, c: int, d: int)
    requires 0 <= a < c && 1 <= b <= d
    ensures a * b < c * d
  {
    Product(a, b, c - 1, d);
    assert (c - 1) * d == c * d - d;
  }

  lemma PixelsByEdge(w: int, h: int, cap: int)
    requires w > 0 && h > 0 && cap > 0
    ensures
      var l, s := LongEdge(w, h), ShortEdge(w, h);
      Pixels(FitBox(w, h, cap)) == if l > cap then cap * Shrunk(s, cap, l) else l * s
  {
    FitEdges(w, h, cap);
  }

  // ---- printing the configuration -----------------------------------------

  /** Negation of a 64-bit integer: the least one is its own negative. */
  function Negate64(n: int): int {
    if n == INT64_MIN then INT64_MIN else -n
  }

  function ItoaText(n: int): string {
    if n == INT64_MIN then "-" else FormatInt(n)
  }

  function FormatRest(m: nat): string {
    if m == 0 then "" else FormatNat(m)
  }

  lemma RestStep(m: nat, tail: string)
    requires m > 0
    ensures FormatRest(m) + tail == FormatRest(m / 10) + ([Digit(m % 10)] + tail)
  {
    assert FormatRest(m) == FormatRest(m / 10) + [Digit(m % 10)];
  }

  method Itoa(n: int) returns (s: string)
    requires INT64_MIN <= n <= INT64_MAX
    ensures s == ItoaText(n)
  {
    if n == 0 {
      return "0";
    }
    var neg := n < 0;
    var m := if neg then Negate64(n) else n;
    ghost var magnitude := m;
    var b := new char[20];
    var i := 20;
    TenToNineteen();
    while m > 0
      invariant 1 <= i <= 20
      invariant m > 0 ==> m < P.Pow(10, i - 1)
      invariant magnitude <= 0 ==> m == magnitude && i == 20
      invariant magnitude > 0 ==> m >= 0 && FormatNat(magnitude) == FormatRest(m) + b[i..]
    {
      P.QuotientBelow(m, 10, i - 1);
      RestStep(m, b[i..]);
      ghost var tail := b[i..];
      i := i - 1;
      b[i] := Digit(m % 10);
      assert b[i..] == [Digit(m % 10)] + tail;
      m := m / 10;
    }
    if neg {
      i := i - 1;
      b[i] := '-';
      assert b[i..] == "-" + b[i + 1..];
    }
    s := b[i..];
  }

  lemma TenToNineteen()
    ensures P.Pow(10, 19) == 10_000_000_000_000_000_000
  {
    assert P.Pow(10, 9) == 1_000_000_000 && P.Pow(10, 10) == 10_000_000_000;
    P.PowSum(10, 9, 10);
  }

  /** The hand-written printer is right for every 64-bit integer but the least, which it prints as a bare sign. */
  lemma ItoaReadsBack(n: int)
    requires INT64_MIN <= n <= INT64_MAX
    ensures ParseInt(ItoaText(n)) == Some(n) <==> n != INT64_MIN
  {
    ParseFormat(n);
  }

  function PresetDef(p: Preset): string {
    PresetName(p) + "=resize:fit:" + WidthText(p) + ":" + WidthText(p) + ":0/enlarge:0" + QualityText(p)
  }

  function WidthText(p: Preset): string {
    ItoaText(if PresetWidth(p).Some? then PresetWidth(p).value else 0)
  }

  function QualityText(p: Preset): string {
    if Lossless(p) then "/quality:100" else ""
  }

  /** Appended piece by piece, or as a whole. */
  lemma PresetLine(out: string, p: Preset, width: string)
    requires width == WidthText(p)
    ensures out + PresetName(p) + "=resize:fit:" + width + ":" + width + ":0/enlarge:0" + QualityText(p)
         == out + PresetDef(p)
  {
    Glue(out, PresetName(p), "=resize:fit:", width, ":", width, ":0/enlarge:0", QualityText(p));
  }

  lemma Glue(out: string, a: string, b: string, c: string, d: string, e: string, f: string, g: string)
    ensures out + a + b + c + d + e + f + g == out + (a + b + c + d + e + f + g)
  {
  }

  function Defs(order: seq<Preset>): (defs: seq<string>)
    ensures |defs| == |order| && forall k | 0 <= k < |order| :: defs[k] == PresetDef(order[k])
  {
    seq(|order|, k requires 0 <= k < |order| => PresetDef(order[k]))
  }

  function Joined(defs: seq<string>): string {
    if defs == [] then "" else Join(defs, ',')
  }

  lemma JoinedSnoc(defs: seq<string>, def: string)
    ensures Joined(defs + [def]) == Joined(defs) + (if defs != [] then "," else "") + def
  {
    if defs != [] { JoinSnoc(defs, def, ','); }
  }

  /** The definitions of the first `n` presets, joined by commas. */
  function DefsText(n: nat): string
    requires n <= |PRESET_ORDER|
  {
    Joined(Defs(PRESET_ORDER[..n]))
  }

  lemma DefsSnoc(order: seq<Preset>, p: Preset)
    ensures Defs(order + [p]) == Defs(order) + [PresetDef(p)]
  {
  }

  lemma DefsTextStep(n: nat)
    requires n < |PRESET_ORDER|
    ensures DefsText(n + 1) == DefsText(n) + (if n > 0 then "," else "") + PresetDef(PRESET_ORDER[n])
  {
    DefsSnoc(PRESET_ORDER[..n], PRESET_ORDER[n]);
    assert PRESET_ORDER[..n + 1] == PRESET_ORDER[..n] + [PRESET_ORDER[n]];
    JoinedSnoc(Defs(PRESET_ORDER[..n]), PresetDef(PRESET_ORDER[n]));
  }

  /** One more definition, appended piece by piece. */
  lemma LineAppended(n: nat, started: string, width: string)
    requires n < |PRESET_ORDER| && started == DefsText(n) + (if n > 0 then "," else "")
    requires width == WidthText(PRESET_ORDER[n])
    ensures
      var p := PRESET_ORDER[n];
      started + PresetName(p) + "=resize:fit:" + width + ":" + width + ":0/enlarge:0" + QualityText(p)
      == DefsText(n + 1)
  {
    DefsTextStep(n);
    PresetLine(started, PRESET_ORDER[n], width);
  }

  method PresetDefs() returns (out: string)
    ensures out == Join(Defs(PRESET_ORDER), ',')
  {
    out := "";
    var i := 0;
    while i < |PRESET_ORDER|
      invariant 0 <= i <= |PRESET_ORDER|
      invariant out == DefsText(i)
    {
      var name := PRESET_ORDER[i];
      if i > 0 {
        out := out + ",";
      }
      var w := Itoa(if PresetWidth(name).Some? then PresetWidth(name).value else 0);
      LineAppended(i, out, w);
      out := out + PresetName(name) + "=resize:fit:" + w + ":" + w + ":0/enlarge:0";
      ghost var unquoted := out;
      if Lossless(name) {
        out := out + "/quality:100";
      }
      assert out == unquoted + QualityText(name);
      i := i + 1;
    }
    AllDefs();
  }

  lemma AllDefs()
    ensures DefsText(|PRESET_ORDER|) == Join(Defs(PRESET_ORDER), ',')
  {
    assert PRESET_ORDER[..|PRESET_ORDER|] == PRESET_ORDER;
  }

  /** What the image engine takes a definition's name to be: the text before the first `=`. */
  function NameOf(def: string): string {
    Split(def, '=')[0]
  }

  function NamesRead(text: string): (names: seq<string>)
    ensures |names| == |Split(text, ',')|
  {
    var defs := Split(text, ',');
    seq(|defs|, k requires 0 <= k < |defs| => NameOf(defs[k]))
  }

  lemma BareFree(s: string, c: char)
    requires Bare(s) && c in {',', '=', ':', '/', '@'}
    ensures c !in s
  {
  }

  lemma WidthTextFree(p: Preset)
    ensures ',' !in WidthText(p)
  {
    FormatIntChars(if PresetWidth(p).Some? then PresetWidth(p).value else 0);
  }

  lemma DefReadsBack(p: Preset)
    ensures ',' !in PresetDef(p) && NameOf(PresetDef(p)) == PresetName(p)
  {
    BareFree(PresetName(p), ',');
    BareFree(PresetName(p), '=');
    WidthTextFree(p);
    var rest := "resize:fit:" + WidthText(p) + ":" + WidthText(p) + ":0/enlarge:0" + QualityText(p);
    Regroup(PresetName(p), "=", "resize:fit:", WidthText(p), ":", ":0/enlarge:0", QualityText(p));
    assert "=resize:fit:" == "=" + "resize:fit:";
    SplitHead(PresetName(p), '=', rest);
    FixedTextFree();
  }

  lemma FixedTextFree()
    ensures ',' !in "=resize:fit:" && ',' !in ":0/enlarge:0" && ',' !in "/quality:100"
  {
  }

  lemma Regroup(a: string, eq: string, b: string, w: string, c: string, d: string, e: string)
    ensures a + (eq + b) + w + c + w + d + e == a + eq + (b + w + c + w + d + e)
  {
  }

  lemma FourDigits(a: nat, b: nat, c: nat, d: nat)
    requires 0 < a < 10 && b < 10 && c < 10 && d < 10
    ensures FormatInt(100 * b + 10 * c + d) == [Digit(b), Digit(c), Digit(d)] || b == 0
    ensures FormatInt(1000 * a + 100 * b + 10 * c + d) == [Digit(a), Digit(b), Digit(c), Digit(d)]
  {
    assert FormatNat(10 * a + b) == [Digit(a), Digit(b)];
    assert (100 * a + 10 * b + c) / 10 == 10 * a + b && (100 * a + 10 * b + c) % 10 == c;
    assert FormatNat(100 * a + 10 * b + c) == [Digit(a), Digit(b), Digit(c)];
    assert (1000 * a + 100 * b + 10 * c + d) / 10 == 100 * a + 10 * b + c;
    assert (100 * b + 10 * c + d) / 10 == 10 * b + c;
    assert b > 0 ==> FormatNat(10 * b + c) == [Digit(b), Digit(c)];
  }

  lemma WidthsPrinted()
    ensures FormatInt(400) == "400" && FormatInt(800) == "800" && FormatInt(1400) == "1400"
    ensures FormatInt(2048) == "2048" && FormatInt(3072) == "3072" && FormatInt(4096) == "4096"
    ensures FormatInt(4898) == "4898" && FormatInt(5477) == "5477" && FormatInt(6197) == "6197"
  {
    FourDigits(1, 4, 0, 0);
    FourDigits(1, 8, 0, 0);
    FourDigits(2, 0, 4, 8);
    FourDigits(3, 0, 7, 2);
    FourDigits(4, 0, 9, 6);
    FourDigits(4, 8, 9, 8);
    FourDigits(5, 4, 7, 7);
    FourDigits(6, 1, 9, 7);
  }

  lemma Definition(p: Preset, name: string, width: string, quality: string)
    requires PresetName(p) == name && WidthText(p) == width && QualityText(p) == quality
    ensures PresetDef(p) == name + ("=resize:fit:" + width + ":" + width + ":0/enlarge:0") + quality
  {
    var box := "=resize:fit:" + width + ":" + width + ":0/enlarge:0";
    Glue("", name, "=resize:fit:", width, ":", width, ":0/enlarge:0", quality);
  }

  lemma TileBoxes()
    ensures "=resize:fit:" + "400" + ":" + "400" + ":0/enlarge:0" == "=resize:fit:400:400:0/enlarge:0"
    ensures "=resize:fit:" + "800" + ":" + "800" + ":0/enlarge:0" == "=resize:fit:800:800:0/enlarge:0"
  {
  }

  lemma TileDefinitions()
    ensures PresetDef(ThumbnailPreset) == "thumbnail" + "=resize:fit:400:400:0/enlarge:0"
    ensures PresetDef(GridPreset) == "grid" + "=resize:fit:800:800:0/enlarge:0"
  {
    WidthsPrinted();
    TileBoxes();
    Definition(ThumbnailPreset, "thumbnail", "400", "");
    Definition(GridPreset, "grid", "800", "");
  }

  lemma LightboxBoxes()
    ensures "=resize:fit:" + "1400" + ":" + "1400" + ":0/enlarge:0" == "=resize:fit:1400:1400:0/enlarge:0"
    ensures "=resize:fit:" + "2048" + ":" + "2048" + ":0/enlarge:0" == "=resize:fit:2048:2048:0/enlarge:0"
  {
  }

  lemma LightboxDefinitions()
    ensures PresetDef(LightboxMobile) == "lightbox_mobile" + "=resize:fit:1400:1400:0/enlarge:0"
    ensures PresetDef(LightboxPreset) == "lightbox" + "=resize:fit:2048:2048:0/enlarge:0"
  {
    WidthsPrinted();
    LightboxBoxes();
    Definition(LightboxMobile, "lightbox_mobile", "1400", "");
    Definition(LightboxPreset, "lightbox", "2048", "");
  }

  lemma ZoomBoxes()
    ensures "=resize:fit:" + "3072" + ":" + "3072" + ":0/enlarge:0" == "=resize:fit:3072:3072:0/enlarge:0"
    ensures "=resize:fit:" + "4096" + ":" + "4096" + ":0/enlarge:0" == "=resize:fit:4096:4096:0/enlarge:0"
  {
  }

  lemma ZoomDefinitions()
    ensures PresetDef(Zoom1Preset) == "zoom_1" + "=resize:fit:3072:3072:0/enlarge:0" + "/quality:100"
    ensures PresetDef(Zoom2Preset) == "zoom_2" + "=resize:fit:4096:4096:0/enlarge:0" + "/quality:100"
  {
    WidthsPrinted();
    ZoomBoxes();
    Definition(Zoom1Preset, "zoom_1", "3072", "/quality:100");
    Definition(Zoom2Preset, "zoom_2", "4096", "/quality:100");
  }

  lemma DeepBoxes()
    ensures "=resize:fit:" + "4898" + ":" + "4898" + ":0/enlarge:0" == "=resize:fit:4898:4898:0/enlarge:0"
    ensures "=resize:fit:" + "5477" + ":" + "5477" + ":0/enlarge:0" == "=resize:fit:5477:5477:0/enlarge:0"
  {
  }

  lemma DeepDefinitions()
    ensures PresetDef(Zoom3NearSquare) == "zoom_3_nearsquare" + "=resize:fit:4898:4898:0/enlarge:0" + "/quality:100"
    ensures PresetDef(Zoom3Standard) == "zoom_3_standard" + "=resize:fit:5477:5477:0/enlarge:0" + "/quality:100"
  {
    WidthsPrinted();
    DeepBoxes();
    Definition(Zoom3NearSquare, "zoom_3_nearsquare", "4898", "/quality:100");
    Definition(Zoom3Standard, "zoom_3_standard", "5477", "/quality:100");
  }

  lemma DeepestBoxes()
    ensures "=resize:fit:" + "6197" + ":" + "6197" + ":0/enlarge:0" == "=resize:fit:6197:6197:0/enlarge:0"
  {
  }

  lemma DeepestDefinitions()
    ensures PresetDef(Zoom3Wide) == "zoom_3_wide" + "=resize:fit:6197:6197:0/enlarge:0" + "/quality:100"
  {
    WidthsPrinted();
    DeepestBoxes();
    Definition(Zoom3Wide, "zoom_3_wide", "6197", "/quality:100");
  }

  /** Each definition, as the deployed image hosts have it: name, box, quality, and in that order. */
  lemma DefinitionsDeployed()
    ensures PresetDef(ThumbnailPreset) == "thumbnail" + "=resize:fit:400:400:0/enlarge:0"
    ensures PresetDef(GridPreset) == "grid" + "=resize:fit:800:800:0/enlarge:0"
    ensures PresetDef(LightboxMobile) == "lightbox_mobile" + "=resize:fit:1400:1400:0/enlarge:0"
    ensures PresetDef(LightboxPreset) == "lightbox" + "=resize:fit:2048:2048:0/enlarge:0"
    ensures PresetDef(Zoom1Preset) == "zoom_1" + "=resize:fit:3072:3072:0/enlarge:0" + "/quality:100"
    ensures PresetDef(Zoom2Preset) == "zoom_2" + "=resize:fit:4096:4096:0/enlarge:0" + "/quality:100"
    ensures PresetDef(Zoom3NearSquare) == "zoom_3_nearsquare" + "=resize:fit:4898:4898:0/enlarge:0" + "/quality:100"
    ensures PresetDef(Zoom3Standard) == "zoom_3_standard" + "=resize:fit:5477:5477:0/enlarge:0" + "/quality:100"
    ensures PresetDef(Zoom3Wide) == "zoom_3_wide" + "=resize:fit:6197:6197:0/enlarge:0" + "/quality:100"
    ensures PRESET_ORDER == [LightboxPreset, LightboxMobile, ThumbnailPreset, GridPreset, Zoom1Preset, Zoom2Preset,
                             Zoom3NearSquare, Zoom3Standard, Zoom3Wide]
  {
    TileDefinitions();
    LightboxDefinitions();
    ZoomDefinitions();
    DeepDefinitions();
    DeepestDefinitions();
  }

  /** The engine reads back from the printed configuration exactly the presets, in order, and no others. */
  lemma PresetDefsReadBack()
    ensures NamesRead(Join(Defs(PRESET_ORDER), ',')) ==
            seq(|PRESET_ORDER|, k requires 0 <= k < |PRESET_ORDER| => PresetName(PRESET_ORDER[k]))
  {
    var defs := Defs(PRESET_ORDER);
    forall k | 0 <= k < |defs| ensures ',' !in defs[k] && NameOf(defs[k]) == PresetName(PRESET_ORDER[k]) {
      DefReadsBack(PRESET_ORDER[k]);
    }
    forall d | d in defs ensures ',' !in d {
      var k :| 0 <= k < |defs| && defs[k] == d;
    }
    SplitJoin(defs, ',');
  }
}

/** Fitting a picture into a square box: whole-number scaling with rounding, in the code's own arithmetic. */
module Fit {

  /** One edge scaled by cap/long and rounded to the nearest pixel, at least one. */
  function Shrunk(edge: int, cap: int, long: int): int
    requires long > 0
  {
    var scaled := (edge as real * (cap as real / long as real) + 0.5).Floor;
    if scaled < 1 then 1 else scaled
  }

  function FitBox(w: int, h: int, cap: int): (int, int)
    requires w > 0 && h > 0
  {
    var long := if h > w then h else w;
    if long <= cap then (w, h) else (Shrunk(w, cap, long), Shrunk(h, cap, long))
  }

  lemma Product(a: int, b: int, c: int, d: int)
    requires 0 <= a <= c && 0 <= b <= d
    ensures a * b <= c * d
  {
    assert a * b <= c * b;
    assert c * b <= c * d;
  }

  /** The rounded quotient reaches `k` exactly when twice the product passes the half-pixel mark. */
  lemma RoundedAtLeast(edge: int, cap: int, long: int, k: int)
    requires long > 0
    ensures (edge as real * (cap as real / long as real) + 0.5).Floor >= k
       <==> 2 * (edge * cap) + long >= 2 * (k * long)
  {
    var l, ratio := long as real, cap as real / long as real;
    var x := edge as real * ratio + 0.5;
    assert ratio * l == cap as real;
    assert edge as real * (ratio * l) == (edge * cap) as real;
    assert x * l == (edge * cap) as real + 0.5 * l by {
      assert x * l == (edge as real * ratio) * l + 0.5 * l;
      assert (edge as real * ratio) * l == edge as real * (ratio * l);
    }
    assert k as real * l == (k * long) as real;
    ScaleAtLeast(x, k as real, l);
    assert x.Floor >= k <==> x >= k as real;
  }

  lemma ScaleAtLeast(x: real, y: real, k: real)
    requires k > 0.0
    ensures x >= y <==> x * k >= y * k
  {
  }

  lemma ShrunkAtLeast(edge: int, cap: int, long: int, k: int)
    requires long > 0 && k > 1
    ensures Shrunk(edge, cap, long) >= k <==> 2 * (edge * cap) + long >= 2 * (k * long)
  {
    RoundedAtLeast(edge, cap, long, k);
  }

  lemma ShrunkLong(cap: int, long: int)
    requires 0 < cap && 0 < long
    ensures Shrunk(long, cap, long) == cap
  {
    RoundedAtLeast(long, cap, long, cap);
    RoundedAtLeast(long, cap, long, cap + 1);
    assert long * cap == cap * long;
    assert (cap + 1) * long == cap * long + long;
  }

  lemma ShrunkBounds(edge: int, cap: int, long: int)
    requires 0 < edge <= long && 0 < cap <= long
    ensures 1 <= Shrunk(edge, cap, long) <= edge
    ensures Shrunk(edge, cap, long) <= cap
  {
    RoundedAtLeast(edge, cap, long, edge + 1);
    RoundedAtLeast(edge, cap, long, cap + 1);
    assert edge * cap <= edge * long by { Product(edge, cap, edge, long); }
    assert (edge + 1) * long == edge * long + long;
    assert edge * cap <= cap * long by { Product(edge, cap, long, cap); }
    assert (cap + 1) * long == cap * long + long;
  }

  lemma ShrunkMonotone(edge: int, small: int, large: int, long: int)
    requires 0 < edge && 0 < small <= large && 0 < long
    ensures 1 <= Shrunk(edge, small, long) <= Shrunk(edge, large, long)
  {
    var k := Shrunk(edge, small, long);
    RoundedAtLeast(edge, small, long, k);
    RoundedAtLeast(edge, large, long, k);
    Product(edge, small, edge, large);
  }

  /** The output edges in terms of the source's long and short edge. */
  lemma FitEdges(w: int, h: int, cap: int)
    requires w > 0 && h > 0 && cap > 0
    ensures
      var l, s := if h > w then h else w, if h > w then w else h;
      var d := FitBox(w, h, cap);
      && (h > w ==> d == (d.0, if l > cap then cap else l) && d.0 == if l > cap then Shrunk(s, cap, l) else s)
      && (h <= w ==> d == (if l > cap then cap else l, d.1) && d.1 == if l > cap then Shrunk(s, cap, l) else s)
  {
    var l := if h > w then h else w;
    ShrunkLong(cap, l);
  }

  lemma FitBounds(w: int, h: int, cap: int)
    requires w > 0 && h > 0 && cap > 0
    ensures var d := FitBox(w, h, cap); 1 <= d.0 <= w && 1 <= d.1 <= h && d.0 <= cap && d.1 <= cap
  {
    var l := if h > w then h else w;
    if l > cap {
      ShrunkBounds(w, cap, l);
      ShrunkBounds(h, cap, l);
    }
  }

  /** No edge grows; a shrunk picture's long edge is exactly the cap. */
  lemma FitNeverEnlarges(w: int, h: int, cap: int)
    requires w > 0 && h > 0 && cap > 0
    ensures var d := FitBox(w, h, cap); 1 <= d.0 <= w && 1 <= d.1 <= h
    ensures
      var d, long := FitBox(w, h, cap), if h > w then h else w;
      (if d.1 > d.0 then d.1 else d.0) == if long <= cap then long else cap
  {
    FitBounds(w, h, cap);
    FitEdges(w, h, cap);
  }

  /** Each shrunk edge is within half a pixel of the exact aspect, unless that would make it vanish. */
  lemma FitKeepsAspect(w: int, h: int, cap: int)
    requires w > 0 && h > 0 && 0 < cap
    requires cap < if h > w then h else w
    ensures
      var d, long := FitBox(w, h, cap), if h > w then h else w;
      && (-long < 2 * (d.0 * long) - 2 * (w * cap) <= long || (d.0 == 1 && 2 * (w * cap) < long))
      && (-long < 2 * (d.1 * long) - 2 * (h * cap) <= long || (d.1 == 1 && 2 * (h * cap) < long))
  {
    var long := if h > w then h else w;
    EdgeKeepsAspect(w, cap, long);
    EdgeKeepsAspect(h, cap, long);
  }

  lemma EdgeKeepsAspect(edge: int, cap: int, long: int)
    requires 0 < edge && 0 < cap && 0 < long
    ensures
      var o := Shrunk(edge, cap, long);
      -long < 2 * (o * long) - 2 * (edge * cap) <= long || (o == 1 && 2 * (edge * cap) < long)
  {
    var o := Shrunk(edge, cap, long);
    RoundedAtLeast(edge, cap, long, 1);
    RoundedAtLeast(edge, cap, long, o);
    RoundedAtLeast(edge, cap, long, o + 1);
    assert (o + 1) * long == o * long + long;
  }

  /** Fitting twice is fitting once, and turning the picture turns the result. */
  lemma FitIdempotentAndSymmetric(w: int, h: int, cap: int)
    requires w > 0 && h > 0 && cap > 0
    ensures FitBox(w, h, cap).0 > 0 && FitBox(w, h, cap).1 > 0
    ensures FitBox(FitBox(w, h, cap).0, FitBox(w, h, cap).1, cap) == FitBox(w, h, cap)
    ensures FitBox(h, w, cap) == (FitBox(w, h, cap).1, FitBox(w, h, cap).0)
  {
    FitBounds(w, h, cap);
  }
}
