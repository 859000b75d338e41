/**
 * The asset script remove_backgrounds.py: two ways of making the light background
 * of a character portrait transparent, and the driver that tries the edge-sampling
 * method first and falls back to the fixed-threshold one.
 *
 * An image is its width, height and row-major RGBA pixels; decoding and encoding
 * PNG files is replaced by a map from input paths to decoded images (`None` for a
 * file that exists but cannot be decoded), and saving is assumed to succeed.
 */
module Backgrounds {
  import opened Common

  /** One 8-bit colour channel. */
  type Byte = x: int | 0 <= x < 256

  datatype Pixel = Pixel(r: Byte, g: Byte, b: Byte, a: Byte)

  datatype Rgb = Rgb(r: Byte, g: Byte, b: Byte)

  function RgbOf(p: Pixel): Rgb { Rgb(p.r, p.g, p.b) }

  datatype Raster = Raster(width: nat, height: nat, pixels: seq<Pixel>)

  /** A raster whose pixel list has one entry per position. */
  type Image = im: Raster | |im.pixels| == im.width * im.height witness Raster(0, 0, [])

  /** `img.getpixel((x, y))` */
  function At(im: Image, x: nat, y: nat): (p: Pixel)
    requires x < im.width && y < im.height
    ensures p in im.pixels
  {
    assert y * im.width + x < im.height * im.width by {
      assert y * im.width <= (im.height - 1) * im.width;
    }
    im.pixels[y * im.width + x]
  }

  // ---------------------------------------------------------------------------
  // remove_background_simple
  // ---------------------------------------------------------------------------

  /** White-ish pixels become transparent, light grey ones faint, all others stay as they are. */
  function SimplePixel(p: Pixel): (q: Pixel)
    ensures RgbOf(q) == RgbOf(p)
    ensures p.r > 240 && p.g > 240 && p.b > 240 ==> q.a == 0
    ensures !(p.r > 240 && p.g > 240 && p.b > 240) && p.r > 200 && p.g > 200 && p.b > 200 ==> q.a == 50
    ensures !(p.r > 200 && p.g > 200 && p.b > 200) ==> q == p
  {
    if p.r > 240 && p.g > 240 && p.b > 240 then p.(a := 0)
    else if p.r > 200 && p.g > 200 && p.b > 200 then p.(a := 50)
    else p
  }

  /** `remove_background_simple` on a decoded image. */
  function Simple(im: Image): (r: Image)
    ensures r.width == im.width && r.height == im.height
    ensures forall i :: 0 <= i < |im.pixels| ==> r.pixels[i] == SimplePixel(im.pixels[i])
  {
    Raster(im.width, im.height, seq(|im.pixels|, i requires 0 <= i < |im.pixels| => SimplePixel(im.pixels[i])))
  }

  /**
   * The fixed-threshold method changes only alpha, and only towards 0 or 50;
   * applying it twice gives the same pixel as applying it once.
   */
  lemma SimpleIdempotent(p: Pixel)
    ensures SimplePixel(p).a <= p.a || SimplePixel(p).a == 50
    ensures SimplePixel(SimplePixel(p)) == SimplePixel(p)
  {
  }

  // ---------------------------------------------------------------------------
  // remove_background_advanced: edge sampling
  // ---------------------------------------------------------------------------

  /** The sampling stride along an edge of length n: `max(1, n // 10)`. */
  function Stride(n: nat): (s: nat)
    ensures s >= 1
    ensures n >= 10 ==> s * 10 <= n
  {
    Max(1, n / 10)
  }

  /** `range(k * step, n, step)`: the multiples of `step` from the k-th on, below n. */
  function Multiples(k: nat, n: nat, step: nat): (r: seq<nat>)
    requires step > 0
    ensures forall i :: 0 <= i < |r| ==> r[i] == (k + i) * step && r[i] < n
    ensures (k + |r|) * step >= n
    decreases n - k * step
  {
    if k * step >= n then []
    else
      var rest := Multiples(k + 1, n, step);
      assert forall i :: 0 <= i < |rest| ==> rest[i] == (k + (i + 1)) * step;
      [k * step] + rest
  }

  /** The positions sampled along an edge of length n: 0, stride, 2 * stride, ... up to the last below n. */
  function EdgePositions(n: nat): (r: seq<nat>)
    ensures forall i :: 0 <= i < |r| ==> r[i] == i * Stride(n) && r[i] < n
    ensures |r| * Stride(n) >= n
    ensures n > 0 ==> |r| > 0 && r[0] == 0
  {
    Multiples(0, n, Stride(n))
  }

  /** The top and bottom pixel of each sampled column, in that order. */
  function TopBottom(im: Image, xs: seq<nat>): (r: seq<Pixel>)
    requires im.height > 0 && forall i :: 0 <= i < |xs| ==> xs[i] < im.width
    ensures |r| == 2 * |xs|
    ensures forall i :: 0 <= i < |xs| ==> r[2 * i] == At(im, xs[i], 0) && r[2 * i + 1] == At(im, xs[i], im.height - 1)
    ensures forall p :: p in r ==> p in im.pixels
    decreases |xs|
  {
    if |xs| == 0 then []
    else [At(im, xs[0], 0), At(im, xs[0], im.height - 1)] + TopBottom(im, xs[1..])
  }

  /** The left and right pixel of each sampled row, in that order. */
  function LeftRight(im: Image, ys: seq<nat>): (r: seq<Pixel>)
    requires im.width > 0 && forall i :: 0 <= i < |ys| ==> ys[i] < im.height
    ensures |r| == 2 * |ys|
    ensures forall i :: 0 <= i < |ys| ==> r[2 * i] == At(im, 0, ys[i]) && r[2 * i + 1] == At(im, im.width - 1, ys[i])
    ensures forall p :: p in r ==> p in im.pixels
    decreases |ys|
  {
    if |ys| == 0 then []
    else [At(im, 0, ys[0]), At(im, im.width - 1, ys[0])] + LeftRight(im, ys[1..])
  }

  /** `edge_samples` of an image with at least one pixel: the border pixels at the sampled positions. */
  function EdgeSamples(im: Image): (r: seq<Pixel>)
    requires im.width > 0 && im.height > 0
    ensures |r| == 2 * |EdgePositions(im.width)| + 2 * |EdgePositions(im.height)|
    ensures |r| > 0
    ensures forall p :: p in r ==> p in im.pixels
    ensures At(im, 0, 0) in r
  {
    var top := TopBottom(im, EdgePositions(im.width));
    var side := LeftRight(im, EdgePositions(im.height));
    assert top[2 * 0] == At(im, 0, 0);
    top + side
  }

  // ---------------------------------------------------------------------------
  // remove_background_advanced: the dominant colour
  // ---------------------------------------------------------------------------

  /** How often a colour occurs among the samples. */
  function Occurrences(colours: seq<Rgb>, c: Rgb): nat {
    multiset(colours)[c]
  }

  /**
   * `max(bg_colors, key=bg_colors.get)` over the distinct colours `keys` in the
   * order the dictionary received them: the index of the first colour of highest
   * count, since `max` only replaces its candidate by a strictly larger one.
   */
  function MostFrequent(keys: seq<Rgb>, colours: seq<Rgb>): (k: nat)
    requires |keys| > 0
    ensures k < |keys|
    ensures forall j :: 0 <= j < |keys| ==> Occurrences(colours, keys[j]) <= Occurrences(colours, keys[k])
    ensures forall j :: 0 <= j < k ==> Occurrences(colours, keys[j]) < Occurrences(colours, keys[k])
    decreases |keys|
  {
    if |keys| == 1 then 0
    else
      var init := keys[..|keys| - 1];
      var best := MostFrequent(init, colours);
      assert forall j :: 0 <= j < |init| ==> keys[j] == init[j];
      if Occurrences(colours, keys[|keys| - 1]) > Occurrences(colours, keys[best]) then |keys| - 1 else best
  }

  /** The colour of the sampled pixels, ignoring alpha. */
  function Colours(samples: seq<Pixel>): (r: seq<Rgb>)
    ensures |r| == |samples|
    ensures forall i :: 0 <= i < |samples| ==> r[i] == RgbOf(samples[i])
  {
    seq(|samples|, i requires 0 <= i < |samples| => RgbOf(samples[i]))
  }

  /** `bg_color`: the most frequent colour among the samples, the earliest seen on a tie. */
  function Dominant(samples: seq<Pixel>): (c: Rgb)
    requires |samples| > 0
    ensures c in Colours(samples)
    ensures forall d :: d in Colours(samples) ==> Occurrences(Colours(samples), d) <= Occurrences(Colours(samples), c)
  {
    var colours := Colours(samples);
    var keys := Dedup(colours);
    assert colours[0] in keys;
    var k := MostFrequent(keys, colours);
    assert forall d :: d in keys ==> exists j :: 0 <= j < |keys| && keys[j] == d;
    keys[k]
  }

  /** Among equally frequent colours the one sampled first wins. */
  lemma DominantIsFirstOfMostFrequent(samples: seq<Pixel>)
    requires |samples| > 0
    ensures var colours := Colours(samples);
      var keys := Dedup(colours);
      exists k :: 0 <= k < |keys| && keys[k] == Dominant(samples) &&
        forall j :: 0 <= j < k ==> Occurrences(colours, keys[j]) < Occurrences(colours, keys[k])
  {
    var colours := Colours(samples);
    var keys := Dedup(colours);
    var k := MostFrequent(keys, colours);
    assert keys[k] == Dominant(samples);
  }

  // ---------------------------------------------------------------------------
  // remove_background_advanced: banding
  // ---------------------------------------------------------------------------

  /** The L1 distance between a pixel's colour and the background colour. */
  function ColourDistance(p: Pixel, bg: Rgb): (d: nat)
    ensures d == 0 <==> RgbOf(p) == bg
  {
    Abs(p.r - bg.r) + Abs(p.g - bg.g) + Abs(p.b - bg.b)
  }

  /** Near the background: transparent below 25, faint below 60, otherwise opaque. */
  function AdvancedPixel(p: Pixel, bg: Rgb): (q: Pixel)
    ensures RgbOf(q) == RgbOf(p)
    ensures ColourDistance(p, bg) < 25 <==> q.a == 0
    ensures 25 <= ColourDistance(p, bg) < 60 <==> q.a == 100
    ensures ColourDistance(p, bg) >= 60 <==> q.a == 255
  {
    var d := ColourDistance(p, bg);
    if d < 25 then p.(a := 0)
    else if d < 60 then p.(a := 100)
    else p.(a := 255)
  }

  /**
   * `remove_background_advanced` on a decoded image.  An image without pixels has
   * no edge samples, and `max` of an empty dictionary raises: the method fails.
   */
  function Advanced(im: Image): (r: Result<Image>)
    ensures r.Err? <==> im.width == 0 || im.height == 0
    ensures r.Ok? ==> r.value.width == im.width && r.value.height == im.height
    ensures r.Ok? ==> forall i :: 0 <= i < |im.pixels| ==>
      r.value.pixels[i] == AdvancedPixel(im.pixels[i], Dominant(EdgeSamples(im)))
  {
    if im.width == 0 || im.height == 0 then Err("max() arg is an empty sequence")
    else
      var bg := Dominant(EdgeSamples(im));
      Ok(Raster(im.width, im.height, seq(|im.pixels|, i requires 0 <= i < |im.pixels| => AdvancedPixel(im.pixels[i], bg))))
  }

  /** Every pixel of the dominant background colour becomes fully transparent; none changes colour. */
  lemma AdvancedClearsBackground(im: Image, i: nat)
    requires im.width > 0 && im.height > 0 && i < |im.pixels|
    ensures Advanced(im).Ok?
    ensures RgbOf(Advanced(im).value.pixels[i]) == RgbOf(im.pixels[i])
    ensures RgbOf(im.pixels[i]) == Dominant(EdgeSamples(im)) ==> Advanced(im).value.pixels[i].a == 0
  {
  }

  // ---------------------------------------------------------------------------
  // main
  // ---------------------------------------------------------------------------

  const InputDir: string := "attached_assets"
  const OutputDir: string := "client/public/characters"

  /** The portraits to process: source file name and target file name. */
  const Characters: seq<(string, string)> := [
    ("Ivy_1753996705463.png", "ivy.png"),
    ("Winter_1753996720672.png", "winter.png"),
    ("Scal_1753996713989.png", "scal.png"),
    ("Lightren_1753996709305.png", "lightren.png")
  ]

  /** `os.path.join(dir, name)` for a relative name. */
  function Join(dir: string, name: string): string {
    dir + "/" + name
  }

  /** The files the script can see: a path maps to its decoded image, or to `None` when it cannot be decoded. */
  type Files = map<string, Option<Image>>

  /** A portrait the script converts: its input exists and decodes. */
  predicate Convertible(files: Files, c: (string, string)) {
    Join(InputDir, c.0) in files && files[Join(InputDir, c.0)].Some?
  }

  /** The image a convertible portrait is written as: the advanced result, or the simple one when that fails. */
  function Converted(im: Image): Image {
    if Advanced(im).Ok? then Advanced(im).value else Simple(im)
  }

  /** The decoded input of a convertible portrait. */
  function InputOf(files: Files, c: (string, string)): Image
    requires Convertible(files, c)
  {
    files[Join(InputDir, c.0)].value
  }

  /**
   * One portrait: a missing input is skipped; the advanced method is tried first and
   * the simple one only when it fails; an undecodable input fails both.
   */
  function ProcessOne(files: Files, written: map<string, Image>, c: (string, string)): (r: (map<string, Image>, bool))
    ensures r.1 <==> Convertible(files, c)
    ensures !r.1 ==> r.0 == written
    ensures r.1 ==> r.0 == written[Join(OutputDir, c.1) := Converted(InputOf(files, c))]
  {
    var input := Join(InputDir, c.0);
    var output := Join(OutputDir, c.1);
    if input !in files then (written, false)
    else
      match files[input]
      case None => (written, false)
      case Some(im) =>
        match Advanced(im)
        case Ok(out) => (written[output := out], true)
        case Err(_) => (written[output := Simple(im)], true)
  }

  /** The driver loop over `characters`: the images written and `success_count`. */
  function ProcessAll(files: Files, cs: seq<(string, string)>): (r: (map<string, Image>, nat))
    ensures r.1 <= |cs|
    ensures r.1 == |Filter(cs, c => Convertible(files, c))|
    ensures forall c :: c in cs && Convertible(files, c) ==> Join(OutputDir, c.1) in r.0
    ensures WrittenFrom(files, cs, r.0)
    decreases |cs|
  {
    if |cs| == 0 then (map[], 0)
    else
      var init := cs[..|cs| - 1];
      var last := cs[|cs| - 1];
      var (written, count) := ProcessAll(files, init);
      FilterSnoc(init, last, c => Convertible(files, c));
      assert cs == init + [last];
      var (written', ok) := ProcessOne(files, written, last);
      WrittenStep(files, init, last, written);
      (written', if ok then count + 1 else count)
  }

  /** Each file written so far holds the conversion of a convertible portrait that targets it. */
  ghost predicate WrittenFrom(files: Files, cs: seq<(string, string)>, written: map<string, Image>) {
    forall p :: p in written ==>
      exists c :: c in cs && Convertible(files, c) && p == Join(OutputDir, c.1) && written[p] == Converted(InputOf(files, c))
  }

  /** One more portrait keeps every written file accounted for. */
  lemma WrittenStep(files: Files, init: seq<(string, string)>, last: (string, string), written: map<string, Image>)
    requires WrittenFrom(files, init, written)
    ensures WrittenFrom(files, init + [last], ProcessOne(files, written, last).0)
  {
    var (written', ok) := ProcessOne(files, written, last);
    var cs := init + [last];
    forall p | p in written'
      ensures exists c :: c in cs && Convertible(files, c) && p == Join(OutputDir, c.1) && written'[p] == Converted(InputOf(files, c))
    {
      if ok && p == Join(OutputDir, last.1) {
        assert last in cs;
      } else {
        var c :| c in init && Convertible(files, c) && p == Join(OutputDir, c.1) && written[p] == Converted(InputOf(files, c));
        assert c in cs;
      }
    }
  }

  /** Filtering a list extended by one element. */
  lemma {:induction false} FilterSnoc<T>(xs: seq<T>, x: T, p: T -> bool)
    ensures Filter(xs + [x], p) == Filter(xs, p) + (if p(x) then [x] else [])
    decreases |xs|
  {
    if |xs| == 0 {
      assert Filter([x], p) == (if p(x) then [x] else []) + Filter([], p);
    } else {
      var ys := xs + [x];
      assert ys[0] == xs[0] && ys[1..] == xs[1..] + [x];
      FilterSnoc(xs[1..], x, p);
      var head := if p(xs[0]) then [xs[0]] else [];
      assert Filter(ys, p) == head + Filter(ys[1..], p);
      assert Filter(xs, p) == head + Filter(xs[1..], p);
    }
  }

  /** `main()`: at most four portraits are converted, one for each input that exists and decodes. */
  function Main(files: Files): (r: (map<string, Image>, nat))
    ensures r.1 <= |Characters|
    ensures r.1 == |Filter(Characters, c => Convertible(files, c))|
    ensures WritesEach(files, Characters, r.0)
  {
    TargetsDistinct();
    DistinctTargetsWritten(files, Characters);
    ProcessAll(files, Characters)
  }

  /**
   * The files written are exactly the targets of the convertible portraits, and each
   * holds the conversion of its own portrait.
   */
  ghost predicate WritesEach(files: Files, cs: seq<(string, string)>, written: map<string, Image>) {
    && (forall p :: p in written <==> exists c :: c in cs && Convertible(files, c) && p == Join(OutputDir, c.1))
    && (forall c :: c in cs && Convertible(files, c) ==>
          Join(OutputDir, c.1) in written && written[Join(OutputDir, c.1)] == Converted(InputOf(files, c)))
  }

  /** With no two portraits sharing a target, each convertible portrait's file holds its own conversion. */
  lemma DistinctTargetsWritten(files: Files, cs: seq<(string, string)>)
    requires forall i, j :: 0 <= i < j < |cs| ==> cs[i].1 != cs[j].1
    ensures WritesEach(files, cs, ProcessAll(files, cs).0)
  {
    var r := ProcessAll(files, cs);
    forall c | c in cs && Convertible(files, c)
      ensures r.0[Join(OutputDir, c.1)] == Converted(InputOf(files, c))
    {
      var p := Join(OutputDir, c.1);
      var c' :| c' in cs && Convertible(files, c') && p == Join(OutputDir, c'.1) && r.0[p] == Converted(InputOf(files, c'));
      JoinInjective(OutputDir, c'.1, c.1);
      var i :| 0 <= i < |cs| && cs[i] == c;
      var j :| 0 <= j < |cs| && cs[j] == c';
      assert i == j;
    }
  }

  /** Joining one directory with two names gives the same path only for the same name. */
  lemma JoinInjective(dir: string, a: string, b: string)
    requires Join(dir, a) == Join(dir, b)
    ensures a == b
  {
    assert a == Join(dir, a)[|dir| + 1..];
  }

  /** No two portraits share a target file. */
  lemma TargetsDistinct()
    ensures forall i, j :: 0 <= i < j < |Characters| ==> Characters[i].1 != Characters[j].1
  {
  }
}
