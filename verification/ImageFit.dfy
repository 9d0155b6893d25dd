/** Image dimensions and the compression ladder. Scale factors are real numbers: floating-point
    rounding is not modelled. */
module ImageFit {
  import opened Options
  import opened Hex

  type Bytes = seq<byte>

  datatype Dimensions = Dimensions(width: int, height: int)

  datatype Limits = Limits(maxEdge: int, preferredEdge: int, thumbnailEdge: int, maxBytes: nat, preferredBytes: nat)

  const DEFAULT_LIMITS := Limits(1280, 960, 320, 1_048_576, 512_000)

  function Max(a: int, b: int): int {
    if a >= b then a else b
  }

  /** Math.round: to the nearest, halves up. */
  function Round(x: real): int {
    (x + 0.5).Floor
  }

  /** One edge under a scale factor, at least a pixel. */
  function Scaled(edge: int, scale: real): int {
    Max(1, Round(edge as real * scale))
  }

  function PlanImageFit(source: Dimensions, maxEdge: int): Option<Dimensions> {
    if maxEdge <= 0 || source.width <= 0 || source.height <= 0 then None
    else
      var longest := Max(source.width, source.height);
      if longest <= maxEdge then Some(source)
      else
        var scale := maxEdge as real / longest as real;
        Some(Dimensions(Scaled(source.width, scale), Scaled(source.height, scale)))
  }

  /** Scaling down never makes an edge longer, nor longer than the bound the exact value meets, nor
      zero, and stays within half a pixel of the exact value unless that pixel is the last one. */
  lemma ScaledDown(edge: int, scale: real, bound: int)
    requires edge > 0 && bound >= 1 && 0.0 <= scale <= 1.0 && edge as real * scale <= bound as real
    ensures 1 <= Scaled(edge, scale) <= bound && Scaled(edge, scale) <= edge
    ensures Scaled(edge, scale) == 1 || -0.5 <= Scaled(edge, scale) as real - edge as real * scale <= 0.5
  {
    var x := edge as real * scale;
    Shrinks(edge as real, scale);
  }

  lemma Shrinks(x: real, scale: real)
    requires x >= 0.0 && 0.0 <= scale <= 1.0
    ensures 0.0 <= x * scale <= x
  {
  }

  lemma ScaleKeepsOrder(a: real, b: real, scale: real)
    requires a <= b && scale >= 0.0
    ensures a * scale <= b * scale
  {
  }

  predicate Near(edge: int, source: int, scale: real) {
    edge == 1 || -0.5 <= edge as real - source as real * scale <= 0.5
  }

  lemma RatioTimes(a: real, b: real)
    requires b > 0.0
    ensures a / b * b == a
  {
  }

  lemma RatioOfSmaller(a: real, b: real)
    requires 0.0 < a <= b
    ensures 0.0 < a / b <= 1.0 && b * (a / b) == a
  {
    RatioTimes(a, b);
  }

  lemma ScaledFit(edge: int, longest: int, maxEdge: int)
    requires 0 < edge <= longest && 0 < maxEdge < longest
    ensures var scale := maxEdge as real / longest as real;
            && 0.0 < scale <= 1.0 && 1 <= Scaled(edge, scale) <= maxEdge && Scaled(edge, scale) <= edge
            && Near(Scaled(edge, scale), edge, scale)
  {
    var scale := maxEdge as real / longest as real;
    RatioOfSmaller(maxEdge as real, longest as real);
    ScaleKeepsOrder(edge as real, longest as real, scale);
    ScaledDown(edge, scale, maxEdge);
  }

  /** A fit exists exactly for positive dimensions and a positive bound; it is inside the bound,
      never an enlargement, keeps what already fits, and keeps the aspect ratio: both edges are the
      same multiple of the source's, up to half a pixel or the one-pixel floor. */
  lemma FitIsInside(source: Dimensions, maxEdge: int)
    ensures PlanImageFit(source, maxEdge).Some? <==> maxEdge > 0 && source.width > 0 && source.height > 0
    ensures PlanImageFit(source, maxEdge).Some?
      ==> var f := PlanImageFit(source, maxEdge).value;
          && 1 <= f.width <= maxEdge && 1 <= f.height <= maxEdge
          && f.width <= source.width && f.height <= source.height
          && (Max(source.width, source.height) <= maxEdge ==> f == source)
          && exists scale: real :: 0.0 < scale <= 1.0
              && Near(f.width, source.width, scale) && Near(f.height, source.height, scale)
  {
    if maxEdge > 0 && source.width > 0 && source.height > 0 {
      var longest := Max(source.width, source.height);
      if longest <= maxEdge {
        assert source.width as real * 1.0 == source.width as real
               && source.height as real * 1.0 == source.height as real;
        assert Near(source.width, source.width, 1.0) && Near(source.height, source.height, 1.0);
      } else {
        ScaledFit(source.width, longest, maxEdge);
        ScaledFit(source.height, longest, maxEdge);
      }
    }
  }

  // ---------------------------------------------------------------- the compression ladder

  datatype Image = Image(width: int, height: int, pixels: int)

  datatype Format = Webp | Jpeg

  /** The platform's image library. */
  datatype Codec = Codec(decode: Bytes -> Option<Image>, resize: (Image, int, int) -> Image, encode: (Image, Format,
        int) -> Bytes)

  const EDGE_STEPS: nat := 5
  const QUALITY_STEPS: nat := 4

  function EdgeScale(i: nat): real
    requires i < EDGE_STEPS
  {
    if i == 0 then 1.0 else if i == 1 then 0.8 else if i == 2 then 0.64 else if i == 3 then 0.5 else 0.36
  }

  function Quality(i: nat): int
    requires i < QUALITY_STEPS
  {
    if i == 0 then 82 else if i == 1 then 68 else if i == 2 then 55 else 42
  }

  datatype Compressed = Compressed(bytes: Bytes, quality: int, dimensions: Dimensions, metPreferred: bool)

  datatype Problem = UnsupportedImage | InvalidDimensions | TooLarge(smallest: nat)

  datatype Result<+T> = Ok(value: T) | Err(problem: Problem)

  function StepDimensions(base: Dimensions, e: nat): Dimensions
    requires e < EDGE_STEPS
  {
    Dimensions(Scaled(base.width, EdgeScale(e)), Scaled(base.height, EdgeScale(e)))
  }

  function Resized(codec: Codec, image: Image, d: Dimensions): Image {
    if d.width == image.width && d.height == image.height then image else codec.resize(image, d.width, d.height)
  }

  /** Candidate k of the ladder: dimensions retreat every four, quality within them. */
  function Candidate(codec: Codec, image: Image, format: Format, base: Dimensions, k: nat): Compressed
    requires k < EDGE_STEPS * QUALITY_STEPS
  {
    var d := StepDimensions(base, k / QUALITY_STEPS);
    var q := Quality(k % QUALITY_STEPS);
    Compressed(codec.encode(Resized(codec, image, d), format, q), q, d, false)
  }

  /** Candidate k is no larger than any before it and smaller than the earlier ones of its size. */
  ghost predicate Smallest(codec: Codec, image: Image, format: Format, base: Dimensions, k: nat, n: nat) {
    k < n <= EDGE_STEPS * QUALITY_STEPS
    && (forall j :: 0 <= j < n ==>
        |Candidate(codec, image, format, base, k).bytes| <= |Candidate(codec, image, format, base, j).bytes|)
    && (forall j :: 0 <= j < k ==>
        |Candidate(codec, image, format, base, k).bytes| < |Candidate(codec, image, format, base, j).bytes|)
  }

  ghost predicate NoneUpTo(codec: Codec, image: Image, format: Format, base: Dimensions, n: nat, limit: nat) {
    n <= EDGE_STEPS * QUALITY_STEPS &&
    forall j :: 0 <= j < n ==> |Candidate(codec, image, format, base, j).bytes| > limit
  }

  ghost predicate FirstPreferred(codec: Codec, image: Image, format: Format, base: Dimensions, limits: Limits,
        k: nat, c: Compressed) {
    k < EDGE_STEPS * QUALITY_STEPS
    && NoneUpTo(codec, image, format, base, k, limits.preferredBytes)
    && c == Candidate(codec, image, format, base, k).(metPreferred := true) && |c.bytes| <= limits.preferredBytes
  }

  ghost predicate LadderResult(codec: Codec, image: Image, format: Format, base: Dimensions, limits: Limits,
        r: Result<Compressed>) {
    match r
    case Ok(c) =>
      if c.metPreferred then exists k :: FirstPreferred(codec, image, format, base, limits, k, c)
      else
        && NoneUpTo(codec, image, format, base, 20, limits.preferredBytes) && |c.bytes| <= limits.maxBytes
        && exists k :: Smallest(codec, image, format, base, k, 20) && c == Candidate(codec, image, format, base, k)
    case Err(TooLarge(n)) =>
      && (exists k :: Smallest(codec, image, format, base, k, 20)
                      && n == |Candidate(codec, image, format, base, k).bytes|)
      && n > limits.maxBytes && NoneUpTo(codec, image, format, base, 20, limits.preferredBytes)
      && NoneUpTo(codec, image, format, base, 20, limits.maxBytes)
    case Err(_) => false
  }

  /** The search after `n` candidates, none of which met the preferred size. */
  ghost predicate Searched(codec: Codec, image: Image, format: Format, base: Dimensions, preferred: nat, n: nat,
        best: nat, smallest: Option<Compressed>) {
    && NoneUpTo(codec, image, format, base, n, preferred)
    && (n == 0 ==> smallest.None?)
    && (n > 0 ==>
        Smallest(codec, image, format, base, best, n)
        && smallest == Some(Candidate(codec, image, format, base, best)))
  }

  lemma SearchNext(codec: Codec, image: Image, format: Format, base: Dimensions, preferred: nat, n: nat, best: nat,
        smallest: Option<Compressed>)
    requires Searched(codec, image, format, base, preferred, n, best, smallest) && n < EDGE_STEPS * QUALITY_STEPS
    ensures var c := Candidate(codec, image, format, base, n);
            var better := smallest.None? || |c.bytes| < |smallest.value.bytes|;
            |c.bytes| > preferred ==> Searched(codec, image, format, base, preferred, n + 1,
                     if better then n else best, if better then Some(c) else smallest)
  {
  }

  lemma CandidateAt(codec: Codec, image: Image, format: Format, base: Dimensions, e: nat, q: nat)
    requires e < EDGE_STEPS && q < QUALITY_STEPS
    ensures 4 * e + q < EDGE_STEPS * QUALITY_STEPS
    ensures var d := StepDimensions(base, e);
            Candidate(codec, image, format, base, 4 * e + q)
            == Compressed(codec.encode(Resized(codec, image, d), format, Quality(q)), Quality(q), d, false)
  {
    assert (4 * e + q) / 4 == e && (4 * e + q) % 4 == q;
  }

  /** One turn of the inner loop: candidate `n`, and whether it ends the search. */
  method TryCandidate(codec: Codec, image: Image, format: Format, base: Dimensions, limits: Limits, resized: Image,
        dimensions: Dimensions,
                      e: nat, q: nat, smallest: Option<Compressed>, ghost best: nat)
      returns (done: bool, candidate: Compressed, next: Option<Compressed>, ghost nextBest: nat)
    requires e < EDGE_STEPS && q < QUALITY_STEPS
    requires dimensions == StepDimensions(base, e) && resized == Resized(codec, image, dimensions)
    requires Searched(codec, image, format, base, limits.preferredBytes, 4 * e + q, best, smallest)
    ensures done ==> FirstPreferred(codec, image, format, base, limits, 4 * e + q, candidate.(metPreferred := true))
    ensures !done ==> Searched(codec, image, format, base, limits.preferredBytes, 4 * e + q + 1, nextBest, next)
  {
    candidate := Compressed(codec.encode(resized, format, Quality(q)), Quality(q), dimensions, false);
    CandidateAt(codec, image, format, base, e, q);
    SearchNext(codec, image, format, base, limits.preferredBytes, 4 * e + q, best, smallest);
    next, nextBest := smallest, best;
    if smallest.None? || |candidate.bytes| < |smallest.value.bytes| {
      next := Some(candidate);
      nextBest := 4 * e + q;
    }
    done := |candidate.bytes| <= limits.preferredBytes;
  }

  /** The ladder search: the first candidate within the preferred size; failing that the smallest of
      all, the earliest among equals, if it is within the hard maximum; failing that an error. */
  method CompressToLimits(codec: Codec, image: Image, format: Format, limits: Limits) returns (r: Result<Compressed>)
    ensures PlanImageFit(Dimensions(image.width, image.height), limits.preferredEdge).None?
            <==> r == Err(InvalidDimensions)
    ensures PlanImageFit(Dimensions(image.width, image.height), limits.preferredEdge).Some?
      ==> LadderResult(codec, image, format,
                       PlanImageFit(Dimensions(image.width, image.height), limits.preferredEdge).value, limits, r)
  {
    var fit := PlanImageFit(Dimensions(image.width, image.height), limits.preferredEdge);
    if fit.None? {
      return Err(InvalidDimensions);
    }
    var base := fit.value;
    var smallest: Option<Compressed> := None;
    ghost var best: nat := 0;
    var e := 0;
    while e < EDGE_STEPS
      invariant 0 <= e <= EDGE_STEPS
                && Searched(codec, image, format, base, limits.preferredBytes, 4 * e, best, smallest)
    {
      var dimensions := StepDimensions(base, e);
      var resized := Resized(codec, image, dimensions);
      var q := 0;
      while q < QUALITY_STEPS
        invariant 0 <= q <= QUALITY_STEPS
        invariant Searched(codec, image, format, base, limits.preferredBytes, 4 * e + q, best, smallest)
      {
        var done, candidate, next;
        ghost var nextBest;
        done, candidate, next, nextBest :=
          TryCandidate(codec, image, format, base, limits, resized, dimensions, e, q, smallest, best);
        if done {
          return Ok(candidate.(metPreferred := true));
        }
        smallest, best := next, nextBest;
        q := q + 1;
      }
      e := e + 1;
    }
    if |smallest.value.bytes| <= limits.maxBytes {
      return Ok(smallest.value);
    }
    r := Err(TooLarge(|smallest.value.bytes|));
  }

  /** Every candidate's dimensions are at least a pixel and inside the preferred edge. */
  lemma CandidatesFit(codec: Codec, image: Image, format: Format, preferredEdge: int, k: nat)
    requires k < EDGE_STEPS * QUALITY_STEPS
    requires PlanImageFit(Dimensions(image.width, image.height), preferredEdge).Some?
    ensures var base := PlanImageFit(Dimensions(image.width, image.height), preferredEdge).value;
            var d := Candidate(codec, image, format, base, k).dimensions;
            1 <= d.width <= preferredEdge && 1 <= d.height <= preferredEdge
  {
    FitIsInside(Dimensions(image.width, image.height), preferredEdge);
    var base := PlanImageFit(Dimensions(image.width, image.height), preferredEdge).value;
    var scale := EdgeScale(k / QUALITY_STEPS);
    Shrinks(base.width as real, scale);
    Shrinks(base.height as real, scale);
    ScaledDown(base.width, scale, base.width);
    ScaledDown(base.height, scale, base.height);
  }

  /** Whatever the ladder returns is inside the preferred edge; it is inside the hard byte maximum
      whenever the preferred size is not set above it. */
  lemma CompressedIsInside(codec: Codec, image: Image, format: Format, limits: Limits, r: Result<Compressed>)
    requires PlanImageFit(Dimensions(image.width, image.height), limits.preferredEdge).Some?
    requires LadderResult(codec, image, format,
                          PlanImageFit(Dimensions(image.width, image.height), limits.preferredEdge).value, limits, r)
    requires r.Ok?
    ensures 1 <= r.value.dimensions.width <= limits.preferredEdge
            && 1 <= r.value.dimensions.height <= limits.preferredEdge
    ensures limits.preferredBytes <= limits.maxBytes ==> |r.value.bytes| <= limits.maxBytes
  {
    var base := PlanImageFit(Dimensions(image.width, image.height), limits.preferredEdge).value;
    if r.value.metPreferred {
      var k :| FirstPreferred(codec, image, format, base, limits, k, r.value);
      CandidatesFit(codec, image, format, limits.preferredEdge, k);
    } else {
      var k :| Smallest(codec, image, format, base, k, 20) && r.value == Candidate(codec, image, format, base, k);
      CandidatesFit(codec, image, format, limits.preferredEdge, k);
    }
  }

  /** The resizer produces the size it is asked for. */
  ghost predicate ResizesExactly(codec: Codec) {
    forall image, w, h :: codec.resize(image, w, h).width == w && codec.resize(image, w, h).height == h
  }

  /** What a result's bytes are an encoding of: the image itself or the codec's resize of it, at the
      dimensions and the quality the result names. */
  ghost predicate Shows(codec: Codec, image: Image, format: Format, c: Compressed, shown: Image) {
    && (shown == image || shown == codec.resize(image, c.dimensions.width, c.dimensions.height))
    && shown.width == c.dimensions.width && shown.height == c.dimensions.height
    && c.bytes == codec.encode(shown, format, c.quality)
  }

  /** The receiver sees the dimensions the sender announces. */
  lemma BytesShowTheirDimensions(codec: Codec, image: Image, format: Format, base: Dimensions, limits: Limits,
        r: Result<Compressed>)
    requires ResizesExactly(codec) && LadderResult(codec, image, format, base, limits, r) && r.Ok?
    ensures exists shown :: Shows(codec, image, format, r.value, shown)
  {
    var c := r.value;
    if c.metPreferred {
      var k :| FirstPreferred(codec, image, format, base, limits, k, c);
    } else {
      var k :| Smallest(codec, image, format, base, k, 20) && c == Candidate(codec, image, format, base, k);
    }
    assert Shows(codec, image, format, c, Resized(codec, image, c.dimensions));
  }

  ghost predicate SmallEnough(codec: Codec, image: Image, format: Format, base: Dimensions, limits: Limits, k: nat) {
    k < EDGE_STEPS * QUALITY_STEPS
    && var n := |Candidate(codec, image, format, base, k).bytes|;
    n <= limits.preferredBytes || n <= limits.maxBytes
  }

  ghost predicate SomeCandidateFits(codec: Codec, image: Image, format: Format, base: Dimensions, limits: Limits) {
    exists k :: SmallEnough(codec, image, format, base, limits, k)
  }

  /** The ladder succeeds exactly when one of the twenty candidates is within either byte limit. */
  lemma LadderSucceeds(codec: Codec, image: Image, format: Format, base: Dimensions, limits: Limits,
        r: Result<Compressed>)
    requires LadderResult(codec, image, format, base, limits, r)
    ensures r.Ok? <==> SomeCandidateFits(codec, image, format, base, limits)
  {
    if r.Ok? {
      if r.value.metPreferred {
        var k :| FirstPreferred(codec, image, format, base, limits, k, r.value);
        assert SmallEnough(codec, image, format, base, limits, k);
      } else {
        var k :| Smallest(codec, image, format, base, k, 20) && r.value == Candidate(codec, image, format, base, k);
        assert SmallEnough(codec, image, format, base, limits, k);
      }
    }
  }

  /** The numbers behind the ladder and the limits: a square of a thousand pixels retreats over five
      sizes, each at four qualities, twenty candidates in all; a photograph of 4000 by 3000 is sent at
      960 by 720 at most, with a thumbnail of 320 by 240. */
  lemma TheLadder(codec: Codec, image: Image, format: Format, k: nat)
    requires k < 20
    ensures var c := Candidate(codec, image, format, Dimensions(1000, 1000), k);
            && c.dimensions.width == [1000, 800, 640, 500, 360][k / 4] && c.dimensions.height == c.dimensions.width
            && c.quality == [82, 68, 55, 42][k % 4]
    ensures PlanImageFit(Dimensions(4000, 3000), DEFAULT_LIMITS.preferredEdge) == Some(Dimensions(960, 720))
    ensures PlanImageFit(Dimensions(4000, 3000), DEFAULT_LIMITS.thumbnailEdge) == Some(Dimensions(320, 240))
    ensures DEFAULT_LIMITS.maxEdge == 1280 && DEFAULT_LIMITS.maxBytes == 1_048_576
            && DEFAULT_LIMITS.preferredBytes == 512_000
  {
    assert Scaled(1000, EdgeScale(k / 4)) == [1000, 800, 640, 500, 360][k / 4];
  }
}
