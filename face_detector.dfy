/**
 * The coordinate-based face-shape rule of `FaceShapeDetector.calculate_face_shape`
 * in backend/face_detector.py. Landmarks are integer pixel points; ratios are
 * Python true divisions, modelled over exact reals.
 */
module Detector {
  import opened Types

  /** A landmark as `detect_face_shape` stores it: `[x, y]` in pixels. */
  datatype Point = Point(x: int, y: int)

  /** The five labels the detector can emit (never "oblong"). */
  const DetectorLabels: set<string> := {"round", "oval", "square", "heart", "diamond"}

  /** The largest landmark index the rule reads (the right cheek). */
  const MaxLandmarkIndex := 454

  function Abs(n: int): (r: nat)
    ensures r == n || r == -n
  {
    if n < 0 then -n else n
  }

  /** `a / b if b > 0 else 0`: a zero denominator yields ratio 0. */
  function GuardedRatio(a: nat, b: nat): (r: real)
    ensures b == 0 ==> r == 0.0
    ensures b > 0 ==> r * (b as real) == a as real
    ensures 0.0 <= r
  {
    if b > 0 then (a as real) / (b as real) else 0.0
  }

  /**
   * The if/elif chain: width/length above 0.9 is round and below 0.7 oval,
   * whatever the other ratios; in between, a jaw nearly as wide as the face
   * is square, a wide-cheeked face with a narrow jaw is heart, and the rest
   * is diamond.
   */
  function ClassifyDetected(widthToLength: real, jawToFace: real, cheekToFace: real): (shape: string)
    ensures shape in DetectorLabels
    ensures shape == "round" <==> 0.9 < widthToLength
    ensures shape == "oval" <==> widthToLength < 0.7
    ensures 0.7 <= widthToLength <= 0.9 ==>
      && (shape == "square" <==> 0.95 < jawToFace)
      && (shape == "heart" <==> jawToFace <= 0.95 && 0.9 < cheekToFace && jawToFace < 0.8)
      && (shape == "diamond" <==> jawToFace <= 0.95 && !(0.9 < cheekToFace && jawToFace < 0.8))
  {
    if widthToLength > 0.9 then "round"
    else if widthToLength < 0.7 then "oval"
    else if jawToFace > 0.95 then "square"
    else if cheekToFace > 0.9 && jawToFace < 0.8 then "heart"
    else "diamond"
  }

  /** The four distances of the rule, each an absolute coordinate difference. */
  datatype Widths = Widths(faceWidth: nat, faceLength: nat, jawWidth: nat, cheekWidth: nat)

  function MeasureWidths(landmarks: seq<Point>): (w: Widths)
    requires |landmarks| > MaxLandmarkIndex
    ensures w.faceWidth == Abs(landmarks[151].x - landmarks[10].x)
    ensures w.faceLength == Abs(landmarks[152].y - landmarks[10].y)
    ensures w.jawWidth == Abs(landmarks[397].x - landmarks[172].x)
    ensures w.cheekWidth == Abs(landmarks[454].x - landmarks[234].x)
  {
    var foreheadLeft := landmarks[10];
    var foreheadRight := landmarks[151];
    var jawLeft := landmarks[172];
    var jawRight := landmarks[397];
    var faceTop := landmarks[10];
    var faceBottom := landmarks[152];
    var cheekLeft := landmarks[234];
    var cheekRight := landmarks[454];
    Widths(
      Abs(foreheadRight.x - foreheadLeft.x),
      Abs(faceBottom.y - faceTop.y),
      Abs(jawRight.x - jawLeft.x),
      Abs(cheekRight.x - cheekLeft.x))
  }

  /**
   * `calculate_face_shape(landmarks)`: a list of at most 454 points raises
   * IndexError at the first index, in the order the source reads them
   * (10, 151, 172, 397, 10, 152, 234, 454), that is past its end; otherwise the widths, the
   * guarded ratios, then the chain.
   */
  function CalculateFaceShape(landmarks: seq<Point>): (r: Result<string>)
    ensures r.Err? <==> |landmarks| <= MaxLandmarkIndex
    ensures r.Ok? ==> r.value in DetectorLabels
  {
    if |landmarks| <= 10 then Err(IndexError(10))
    else if |landmarks| <= 151 then Err(IndexError(151))
    else if |landmarks| <= 172 then Err(IndexError(172))
    else if |landmarks| <= 397 then Err(IndexError(397))
    else if |landmarks| <= 454 then Err(IndexError(454))
    else
      var w := MeasureWidths(landmarks);
      var widthToLengthRatio := GuardedRatio(w.faceWidth, w.faceLength);
      var jawToFaceRatio := GuardedRatio(w.jawWidth, w.faceWidth);
      var cheekToFaceRatio := GuardedRatio(w.cheekWidth, w.faceWidth);
      Ok(ClassifyDetected(widthToLengthRatio, jawToFaceRatio, cheekToFaceRatio))
  }

  /** A face of zero width or zero length is always "oval". */
  lemma DegenerateFaceIsOval(landmarks: seq<Point>)
    requires |landmarks| > MaxLandmarkIndex
    requires landmarks[151].x == landmarks[10].x || landmarks[152].y == landmarks[10].y
    ensures CalculateFaceShape(landmarks) == Ok("oval")
  {
    var w := MeasureWidths(landmarks);
    assert w.faceWidth == 0 || w.faceLength == 0;
    assert GuardedRatio(w.faceWidth, w.faceLength) == 0.0;
  }

  /**
   * Outside the band [0.7, 0.9] of width/length the label depends on that
   * ratio alone: moving the jaw and cheek points does not change it.
   */
  lemma OutsideBandIgnoresJawAndCheeks(landmarks: seq<Point>, other: seq<Point>)
    requires |landmarks| > MaxLandmarkIndex && |other| > MaxLandmarkIndex
    requires landmarks[10] == other[10] && landmarks[151] == other[151] && landmarks[152] == other[152]
    requires var w := MeasureWidths(landmarks);
      var ratio := GuardedRatio(w.faceWidth, w.faceLength);
      ratio < 0.7 || 0.9 < ratio
    ensures CalculateFaceShape(landmarks) == CalculateFaceShape(other)
  {
    var w, v := MeasureWidths(landmarks), MeasureWidths(other);
    assert w.faceWidth == v.faceWidth && w.faceLength == v.faceLength;
  }
}
