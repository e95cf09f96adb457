/**
 * The v2 feature extractor: an image becomes one fixed-length vector made of a
 * colour group (hue and saturation histograms), a texture group (a uniform LBP
 * histogram) and a shape group (seven log-scaled Hu moments), concatenated in
 * that order. The OpenCV and scikit-image stages are opaque collaborators;
 * what is modelled is their sizes, their all-or-nothing sequencing and the
 * layout of the assembled vector.
 */
module Features {
  import opened Wrappers

  // Configuration shared with the pipeline the classifiers were fitted on.
  const IMG_WIDTH: nat := 250
  const IMG_HEIGHT: nat := 250
  const H_BINS: nat := 180
  const S_BINS: nat := 256
  const LBP_POINTS: nat := 24
  const LBP_RADIUS: nat := 8
  const LBP_BINS: nat := LBP_POINTS + 2
  /** Number of Hu invariant moments. */
  const HU_COUNT: nat := 7

  // Layout of the assembled vector: [hue | saturation | texture | shape].
  const COLOR_LEN: nat := H_BINS + S_BINS
  const HUE_START: nat := 0
  const SAT_START: nat := HUE_START + H_BINS
  const TEXTURE_START: nat := SAT_START + S_BINS
  const SHAPE_START: nat := TEXTURE_START + LBP_BINS
  const FEATURE_LEN: nat := SHAPE_START + HU_COUNT

  /** One pixel of a three-channel image (B, G, R after the decoder's conversion). */
  datatype Pixel = Pixel(c0: int, c1: int, c2: int)

  /** A decoded image: rows of pixels, of any size. */
  type Image = seq<seq<Pixel>>

  /** A single-channel image. */
  type GrayImage = seq<seq<int>>

  /** `g` has `h` rows of `w` cells each. */
  predicate HasSize<T>(g: seq<seq<T>>, w: nat, h: nat)
  {
    |g| == h && forall r :: 0 <= r < |g| ==> |g[r]| == w
  }

  /** The image after resizing to IMG_WIDTH x IMG_HEIGHT and the 5x5 Gaussian blur. */
  type NormalizedImage = g: Image | HasSize(g, IMG_WIDTH, IMG_HEIGHT)
    witness seq(IMG_HEIGHT, _ => seq(IMG_WIDTH, _ => Pixel(0, 0, 0)))

  /** Every value lies in [0, 1], as min-max normalisation to that range leaves it. */
  predicate InUnitRange(h: seq<real>)
  {
    forall i :: 0 <= i < |h| ==> 0.0 <= h[i] <= 1.0
  }

  /** The min-max normalised hue histogram. */
  type HueHistogram = h: seq<real> | |h| == H_BINS && InUnitRange(h)
    witness seq(H_BINS, _ => 0.0)

  /** The min-max normalised saturation histogram. */
  type SatHistogram = h: seq<real> | |h| == S_BINS && InUnitRange(h)
    witness seq(S_BINS, _ => 0.0)

  /** The min-max normalised histogram of uniform LBP labels. */
  type TextureHistogram = h: seq<real> | |h| == LBP_BINS && InUnitRange(h)
    witness seq(LBP_BINS, _ => 0.0)

  /** The seven sign-preserving log-scaled Hu moments; unbounded and possibly negative. */
  type ShapeFeatures = h: seq<real> | |h| == HU_COUNT
    witness seq(HU_COUNT, _ => 0.0)

  /**
   * The library stages of the extractor, one field per call chain. A stage
   * that raises answers None.
   */
  datatype Stages = Stages(
    prepare: Image -> Option<NormalizedImage>,     // resize, then Gaussian blur
    toHsv: NormalizedImage -> Option<Image>,       // BGR to HSV
    toGray: NormalizedImage -> Option<GrayImage>,  // BGR to grey
    hueHistogram: Image -> Option<HueHistogram>,   // calcHist on channel 0, then normalize
    satHistogram: Image -> Option<SatHistogram>,   // calcHist on channel 1, then normalize
    textureHistogram: GrayImage -> Option<TextureHistogram>, // LBP, histogram, normalize
    shapeFeatures: GrayImage -> Option<ShapeFeatures>)       // Otsu, moments, Hu, log scale

  /** The colour group: hue histogram followed by saturation histogram. */
  function ColorFeatures(hue: HueHistogram, sat: SatHistogram): (c: seq<real>)
    ensures |c| == COLOR_LEN
  {
    hue + sat
  }

  /** The final concatenation of colour, texture and shape groups. */
  function Assemble(color: seq<real>, texture: TextureHistogram, shape: ShapeFeatures): (v: seq<real>)
    requires |color| == COLOR_LEN
    ensures |v| == FEATURE_LEN
  {
    color + texture + shape
  }

  /** The extractor as a whole: every stage must succeed, or there is no vector at all. */
  function Extract(st: Stages, image: Image): (r: Option<seq<real>>)
    ensures r.Some? ==> |r.value| == FEATURE_LEN
  {
    var normalized :- st.prepare(image);
    var hsv :- st.toHsv(normalized);
    var gray :- st.toGray(normalized);
    var hue :- st.hueHistogram(hsv);
    var sat :- st.satHistogram(hsv);
    var texture :- st.textureHistogram(gray);
    var shape :- st.shapeFeatures(gray);
    Some(Assemble(ColorFeatures(hue, sat), texture, shape))
  }

  // Readers of the four segments of an assembled vector.

  function HueSegment(v: seq<real>): seq<real>
    requires |v| == FEATURE_LEN
  {
    v[HUE_START..SAT_START]
  }

  function SatSegment(v: seq<real>): seq<real>
    requires |v| == FEATURE_LEN
  {
    v[SAT_START..TEXTURE_START]
  }

  function TextureSegment(v: seq<real>): seq<real>
    requires |v| == FEATURE_LEN
  {
    v[TEXTURE_START..SHAPE_START]
  }

  function ShapeSegment(v: seq<real>): seq<real>
    requires |v| == FEATURE_LEN
  {
    v[SHAPE_START..FEATURE_LEN]
  }

  /** The segment offsets and the total length, written out. */
  lemma LayoutOffsets()
    ensures COLOR_LEN == 436 && LBP_BINS == 26
    ensures HUE_START == 0 && SAT_START == 180 && TEXTURE_START == 436 && SHAPE_START == 462
    ensures FEATURE_LEN == 469 && FEATURE_LEN == H_BINS + S_BINS + LBP_BINS + HU_COUNT
  {
  }

  /** Each group of an assembled vector is recovered by slicing at the layout offsets. */
  lemma SegmentsOfAssemble(hue: HueHistogram, sat: SatHistogram, texture: TextureHistogram, shape: ShapeFeatures)
    ensures var v := Assemble(ColorFeatures(hue, sat), texture, shape);
      HueSegment(v) == hue && SatSegment(v) == sat &&
      TextureSegment(v) == texture && ShapeSegment(v) == shape
  {
  }

  /** Conversely, a vector of the right length is the concatenation of its four segments. */
  lemma AssembleOfSegments(v: seq<real>)
    requires |v| == FEATURE_LEN
    ensures v == HueSegment(v) + SatSegment(v) + TextureSegment(v) + ShapeSegment(v)
  {
  }

  /**
   * Extraction is all-or-nothing: a vector comes out exactly when every stage
   * answers, and then each segment is that stage's output.
   */
  lemma ExtractSegments(st: Stages, image: Image)
    ensures Extract(st, image).Some? <==>
      st.prepare(image).Some? &&
      var n := st.prepare(image).value;
      st.toHsv(n).Some? && st.toGray(n).Some? &&
      st.hueHistogram(st.toHsv(n).value).Some? && st.satHistogram(st.toHsv(n).value).Some? &&
      st.textureHistogram(st.toGray(n).value).Some? && st.shapeFeatures(st.toGray(n).value).Some?
    ensures Extract(st, image).Some? ==>
      var v := Extract(st, image).value;
      var n := st.prepare(image).value;
      HueSegment(v) == st.hueHistogram(st.toHsv(n).value).value &&
      SatSegment(v) == st.satHistogram(st.toHsv(n).value).value &&
      TextureSegment(v) == st.textureHistogram(st.toGray(n).value).value &&
      ShapeSegment(v) == st.shapeFeatures(st.toGray(n).value).value
  {
  }

  /** The colour and texture segments of an extracted vector lie in [0, 1]; only the shape segment is unbounded. */
  lemma ExtractedHistogramsInUnitRange(st: Stages, image: Image)
    requires Extract(st, image).Some?
    ensures forall i :: HUE_START <= i < SHAPE_START ==> 0.0 <= Extract(st, image).value[i] <= 1.0
  {
  }
}
