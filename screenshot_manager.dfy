/** The screenshot pipeline (src/screenshot-manager.ts): capture, optional
    annotation, a cache by name mirrored to one file per name, and a
    normalised difference score between two cached captures. */
module Screenshots {
  import opened Common
  import opened Text
  import opened OrderedMaps
  import opened Annotations
  import opened Driver

  datatype ScreenshotOptions = ScreenshotOptions(
    mode: Option<string>,
    selector: Option<string>,
    format: Option<string>,
    quality: Option<int>,
    annotations: Option<seq<Annotation>>)

  /** What the driver, the image library and the file system answer during
      one capture: the raster, the annotated image, the file write. */
  datatype CaptureReplies = CaptureReplies(raster: Result<Image>, composited: Result<Image>, written: Result<()>)

  const DefaultFormat := "png"
  const DefaultQuality := 90

  function FormatOf(o: ScreenshotOptions): string {
    o.format.GetOr(DefaultFormat)
  }

  /** The screenshot call a capture makes, or the error raised before any
      capture: `full` captures the whole page, `element` the first match of
      the selector, every other mode the viewport; the quality is passed only
      for JPEG. */
  function CaptureCall(page: PageHandle, o: ScreenshotOptions): (r: Result<Event>)
    ensures r.Err? <==> o.mode == Some("element") && !Truthy(o.selector)
    ensures r.Err? ==> r.message == "Selector is required for element screenshot"
    ensures r.Ok? ==> r.value.Screenshot? && r.value.page == page && r.value.format == FormatOf(o)
    ensures r.Ok? ==> (r.value.scope == WholePage <==> o.mode == Some("full"))
    ensures r.Ok? ==> (r.value.scope == VisibleArea <==> o.mode != Some("full") && o.mode != Some("element"))
    ensures r.Ok? && r.value.scope.FirstMatch? ==> Some(r.value.scope.selector) == o.selector
    ensures r.Ok? ==> (r.value.quality.Some? <==> FormatOf(o) == "jpeg")
    ensures r.Ok? && r.value.quality.Some? ==> r.value.quality.value == o.quality.GetOr(DefaultQuality)
  {
    var format := FormatOf(o);
    var quality := if format == "jpeg" then Some(o.quality.GetOr(DefaultQuality)) else None;
    match o.mode
    case Some("full") => Ok(Screenshot(page, WholePage, format, quality))
    case Some("element") =>
      if Truthy(o.selector) then Ok(Screenshot(page, FirstMatch(o.selector.value), format, quality))
      else Err("Selector is required for element screenshot")
    case _ => Ok(Screenshot(page, VisibleArea, format, quality))
  }

  /** Annotations are drawn only when a non-empty list is given. */
  predicate Annotating(o: ScreenshotOptions) {
    o.annotations.Some? && |o.annotations.value| > 0
  }

  /** The image a capture stores, or the error that stops it before storing:
      the raster itself, or the raster with the overlay composited on it. */
  function StoredImage(o: ScreenshotOptions, replies: CaptureReplies): (r: Result<Image>)
    ensures replies.raster.Err? ==> r == replies.raster
    ensures !Annotating(o) ==> r == replies.raster
    ensures r.Ok? && Annotating(o) ==> r == replies.composited
    ensures Annotating(o) && replies.raster.Ok? && HasDimensions(replies.raster.value) ==> r == replies.composited
    ensures Annotating(o) && replies.raster.Ok? && !HasDimensions(replies.raster.value) ==>
              r == Err("Could not get image dimensions")
  {
    match replies.raster
    case Err(e) => Err(e)
    case Ok(img) =>
      if !Annotating(o) then Ok(img)
      else if !HasDimensions(img) then Err("Could not get image dimensions")
      else replies.composited
  }

  /** The image library reports both dimensions (a zero one is falsy). */
  predicate HasDimensions(img: Image) {
    img.width != 0 && img.height != 0
  }

  /** The overlay a capture composites onto the raster, if it gets that far. */
  function CompositeCalls(o: ScreenshotOptions, replies: CaptureReplies): seq<Event> {
    if Annotating(o) && replies.raster.Ok? && HasDimensions(replies.raster.value) then
      var img := replies.raster.value;
      [Composite(img, OverlayFor(img.width, img.height, o.annotations.value))]
    else []
  }

  function PathFor(dir: string, name: string, format: string): string {
    dir + "/" + name + "." + format
  }

  function AbsDiff(a: byte, b: byte): byte {
    if a < b then b - a else a - b
  }

  function Min(a: nat, b: nat): nat {
    if a < b then a else b
  }

  /** The "difference" blend of two rasters: the absolute difference of the
      samples at each position the two have in common. */
  function Difference(a: seq<byte>, b: seq<byte>): (d: seq<byte>)
    ensures |d| == Min(|a|, |b|)
    ensures forall i :: 0 <= i < |d| ==> d[i] == AbsDiff(a[i], b[i])
  {
    seq(Min(|a|, |b|), i requires 0 <= i < Min(|a|, |b|) => AbsDiff(a[i], b[i]))
  }

  function Sum(s: seq<byte>): nat {
    if s == [] then 0 else Sum(s[..|s| - 1]) + s[|s| - 1]
  }

  /** A comparison result; `NaN` is what 0/0 gives for an empty difference. */
  datatype Score = Ratio(value: real) | NaN

  /** The difference score of two images: 1 when their dimensions differ,
      otherwise the sum of the difference samples over 255 per sample. */
  function DiffScore(a: Image, b: Image): (s: Score)
    ensures a.width != b.width || a.height != b.height ==> s == Ratio(1.0)
    ensures s.NaN? <==> a.width == b.width && a.height == b.height && Min(|a.data|, |b.data|) == 0
  {
    if a.width != b.width || a.height != b.height then Ratio(1.0)
    else
      var d := Difference(a.data, b.data);
      if |d| == 0 then NaN else Ratio((Sum(d) as real) / ((255 * |d|) as real))
  }

  lemma {:induction false} SumBound(s: seq<byte>)
    ensures Sum(s) <= 255 * |s|
  {
    if s != [] {
      SumBound(s[..|s| - 1]);
    }
  }

  lemma {:induction false} SumZero(s: seq<byte>)
    ensures Sum(s) == 0 <==> forall i :: 0 <= i < |s| ==> s[i] == 0
  {
    if s != [] {
      var init := s[..|s| - 1];
      SumZero(init);
      assert forall i :: 0 <= i < |init| ==> init[i] == s[i];
    }
  }

  /** Every score of equally sized images lies in [0, 1]. */
  lemma ScoreInUnitInterval(a: Image, b: Image)
    requires DiffScore(a, b).Ratio?
    ensures 0.0 <= DiffScore(a, b).value <= 1.0
  {
    if a.width == b.width && a.height == b.height {
      var d := Difference(a.data, b.data);
      SumBound(d);
      RatioInUnitInterval(Sum(d), 255 * |d|);
    }
  }

  lemma RatioInUnitInterval(num: nat, den: nat)
    requires 0 < den && num <= den
    ensures 0.0 <= (num as real) / (den as real) <= 1.0
  {
    var q := (num as real) / (den as real);
    assert q * (den as real) == num as real;
  }

  /** The score does not depend on the order of the two images. */
  lemma ScoreSymmetric(a: Image, b: Image)
    ensures DiffScore(a, b) == DiffScore(b, a)
  {
    if a.width == b.width && a.height == b.height {
      assert Difference(a.data, b.data) == Difference(b.data, a.data);
    }
  }

  /** Equally sized images score exactly 0 if and only if their samples agree
      wherever both have one (and there is at least one). */
  lemma ScoreZeroIffSame(a: Image, b: Image)
    requires a.width == b.width && a.height == b.height
    ensures var n := Min(|a.data|, |b.data|);
            DiffScore(a, b) == Ratio(0.0) <==> n > 0 && a.data[..n] == b.data[..n]
  {
    var d := Difference(a.data, b.data);
    var n := Min(|a.data|, |b.data|);
    SumZero(d);
    if n > 0 {
      var den := (255 * n) as real;
      assert (Sum(d) as real) / den == 0.0 <==> Sum(d) == 0;
      if a.data[..n] == b.data[..n] {
        forall i | 0 <= i < n ensures d[i] == 0 {
          assert a.data[..n][i] == b.data[..n][i];
        }
      }
      if Sum(d) == 0 {
        assert forall i :: 0 <= i < n ==> a.data[i] == b.data[i];
        assert a.data[..n] == b.data[..n];
      }
    }
  }

  /** A non-empty image compared with itself scores exactly 0. */
  lemma SelfScoreZero(a: Image)
    requires |a.data| > 0
    ensures DiffScore(a, a) == Ratio(0.0)
  {
    ScoreZeroIffSame(a, a);
  }

  class ScreenshotManager {
    const driver: Driver
    /** The directory screenshots are written to. */
    const screenshotDir: string
    var screenshots: OrderedMap<Image>

    ghost predicate Valid()
      reads this
    {
      screenshots.Valid()
    }

    constructor (driver: Driver, screenshotDir: string)
      ensures Valid() && this.driver == driver && this.screenshotDir == screenshotDir
      ensures screenshots == Empty()
    {
      this.driver := driver;
      this.screenshotDir := screenshotDir;
      screenshots := Empty();
    }

    /** `captureScreenshot`: validates the mode, captures, annotates when asked,
        caches the final image under `name` (replacing any earlier one), then
        writes it to `<dir>/<name>.<format>` and returns that path. A failed
        write is reported after the cache was already updated. */
    method CaptureScreenshot(page: PageHandle, name: string, options: ScreenshotOptions, replies: CaptureReplies)
      returns (r: Result<string>)
      requires Valid()
      modifies this, driver
      ensures Valid()
      ensures CaptureCall(page, options).Err? ==>
                r == Err(CaptureCall(page, options).message) &&
                screenshots == old(screenshots) && driver.trace == old(driver.trace)
      ensures CaptureCall(page, options).Ok? && StoredImage(options, replies).Err? ==>
                r == Err(StoredImage(options, replies).message) && screenshots == old(screenshots) &&
                driver.trace == old(driver.trace) + [CaptureCall(page, options).value] +
                                CompositeCalls(options, replies)
      ensures CaptureCall(page, options).Ok? && StoredImage(options, replies).Ok? ==>
                var img, path := StoredImage(options, replies).value, PathFor(screenshotDir, name, FormatOf(options));
                screenshots == old(screenshots).Set(name, img) &&
                driver.trace == old(driver.trace) + [CaptureCall(page, options).value] +
                                CompositeCalls(options, replies) + [WriteFile(path, img)] &&
                r == (if replies.written.Err? then Err(replies.written.message) else Ok(path))
    {
      var call := CaptureCall(page, options);
      if call.Err? {
        return Err(call.message);
      }
      driver.Record(call.value);
      if replies.raster.Err? {
        return Err(replies.raster.message);
      }
      var image := replies.raster.value;
      if Annotating(options) {
        if !HasDimensions(image) {
          return Err("Could not get image dimensions");
        }
        driver.Record(Composite(image, OverlayFor(image.width, image.height, options.annotations.value)));
        if replies.composited.Err? {
          return Err(replies.composited.message);
        }
        image := replies.composited.value;
      }
      screenshots := screenshots.Set(name, image);
      var path := PathFor(screenshotDir, name, FormatOf(options));
      driver.Record(WriteFile(path, image));
      if replies.written.Err? {
        return Err(replies.written.message);
      }
      return Ok(path);
    }

    /** `getScreenshot`. */
    function GetScreenshot(name: string): (img: Option<Image>)
      reads this
      ensures img.Some? <==> screenshots.Has(name)
      ensures img.Some? ==> img.value == screenshots.entries[name]
    {
      screenshots.Get(name)
    }

    /** `getAllScreenshots`: the cache as a value. */
    function AllScreenshots(): (copy: OrderedMap<Image>)
      reads this
      requires Valid()
      ensures copy.Valid() && copy.keys == screenshots.keys && copy.entries == screenshots.entries
    {
      screenshots
    }

    /** `compareScreenshots`: fails unless both names are cached; otherwise the
        difference score of the two cached images, summed sample by sample. */
    method CompareScreenshots(name1: string, name2: string) returns (r: Result<Score>)
      requires Valid()
      ensures !(screenshots.Has(name1) && screenshots.Has(name2)) ==>
                r == Err("One or both screenshots not found")
      ensures screenshots.Has(name1) && screenshots.Has(name2) ==>
                r == Ok(DiffScore(screenshots.entries[name1], screenshots.entries[name2]))
    {
      var first, second := screenshots.Get(name1), screenshots.Get(name2);
      if first.None? || second.None? {
        return Err("One or both screenshots not found");
      }
      var a, b := first.value, second.value;
      if a.width != b.width || a.height != b.height {
        return Ok(Ratio(1.0));
      }
      var diff := Difference(a.data, b.data);
      var totalDiff: nat := 0;
      for i := 0 to |diff|
        invariant totalDiff == Sum(diff[..i])
      {
        assert diff[..i + 1][..i] == diff[..i];
        totalDiff := totalDiff + diff[i];
      }
      assert diff[..|diff|] == diff;
      var maxDiff := 255 * |diff|;
      if maxDiff == 0 {
        return Ok(NaN);
      }
      return Ok(Ratio((totalDiff as real) / (maxDiff as real)));
    }

    /** `clearScreenshots`. */
    method ClearScreenshots()
      requires Valid()
      modifies this
      ensures Valid() && screenshots == Empty()
    {
      screenshots := Empty();
    }
  }
}
