/**
 * The ratio-based face-shape classifier of backend/face_analyzer.py. The
 * measurements themselves come from Euclidean norms over MediaPipe landmarks
 * and are inputs here. They are numpy float64 values, so a ratio is an exact
 * real quotient when its divisor is not zero and an infinity or NaN when it is.
 */
module Analyzer {
  import opened Types

  /** The six labels the analyzer can emit. */
  const AnalyzerLabels: set<string> := {"oval", "heart", "square", "round", "oblong", "diamond"}

  /**
   * A numpy float64 quotient of two measurements. The measurements are numpy
   * values (`np.linalg.norm` returns float64), so dividing by zero does not
   * raise: it gives an infinity, or NaN for 0/0.
   */
  datatype Quotient = Finite(value: real) | PosInf | NegInf | NaN

  /** float64 `a / b`: the exact quotient, or IEEE 754's result for a zero divisor. */
  function Divide(a: real, b: real): (q: Quotient)
    ensures q.Finite? <==> b != 0.0
    ensures q.Finite? ==> q.value * b == a
    ensures q == PosInf <==> b == 0.0 && a > 0.0
    ensures q == NegInf <==> b == 0.0 && a < 0.0
    ensures q == NaN <==> b == 0.0 && a == 0.0
  {
    if b != 0.0 then Finite(a / b)
    else if a > 0.0 then PosInf
    else if a < 0.0 then NegInf
    else NaN
  }

  /** `c <= q`; every comparison with NaN is false. */
  predicate AtLeast(q: Quotient, c: real) {
    match q
    case Finite(v) => c <= v
    case PosInf => true
    case NegInf => false
    case NaN => false
  }

  /** `q <= c` */
  predicate AtMost(q: Quotient, c: real) {
    match q
    case Finite(v) => v <= c
    case PosInf => false
    case NegInf => true
    case NaN => false
  }

  /** `q < c` */
  predicate Below(q: Quotient, c: real) {
    match q
    case Finite(v) => v < c
    case PosInf => false
    case NegInf => true
    case NaN => false
  }

  /** `q > c` */
  predicate Above(q: Quotient, c: real) {
    match q
    case Finite(v) => v > c
    case PosInf => true
    case NegInf => false
    case NaN => false
  }

  /**
   * The decision tree of `classify_face_shape` over the length-to-width ratio
   * and the jaw-to-cheekbone ratio, with float64 comparisons: a ratio that is
   * NaN fails every test and so falls through to the last branch.
   */
  function ClassifyRatios(faceRatio: Quotient, jawToCheekRatio: Quotient): (shape: string)
    ensures shape in AnalyzerLabels
    ensures AtLeast(faceRatio, 1.2) && AtMost(faceRatio, 1.3) ==>
      && (shape == "oval" <==> AtLeast(jawToCheekRatio, 0.8) && AtMost(jawToCheekRatio, 1.0))
      && (shape == "heart" <==> Below(jawToCheekRatio, 0.8))
      && (shape == "square" <==>
            !(AtLeast(jawToCheekRatio, 0.8) && AtMost(jawToCheekRatio, 1.0)) && !Below(jawToCheekRatio, 0.8))
    ensures !(AtLeast(faceRatio, 1.2) && AtMost(faceRatio, 1.3)) && Below(faceRatio, 1.2) ==>
      && (shape == "round" <==> Above(jawToCheekRatio, 0.9))
      && (shape == "heart" <==> !Above(jawToCheekRatio, 0.9))
    ensures !(AtLeast(faceRatio, 1.2) && AtMost(faceRatio, 1.3)) && !Below(faceRatio, 1.2) ==>
      && (shape == "oblong" <==> Above(jawToCheekRatio, 0.9))
      && (shape == "diamond" <==> !Above(jawToCheekRatio, 0.9))
  {
    if AtLeast(faceRatio, 1.2) && AtMost(faceRatio, 1.3) then
      if AtLeast(jawToCheekRatio, 0.8) && AtMost(jawToCheekRatio, 1.0) then "oval"
      else if Below(jawToCheekRatio, 0.8) then "heart"
      else "square"
    else if Below(faceRatio, 1.2) then
      if Above(jawToCheekRatio, 0.9) then "round" else "heart"
    else
      if Above(jawToCheekRatio, 0.9) then "oblong" else "diamond"
  }

  /** On finite ratios the tree is the plain interval partition of the two ratios. */
  lemma ClassifyFiniteRatios(faceRatio: real, jawToCheekRatio: real)
    ensures var shape := ClassifyRatios(Finite(faceRatio), Finite(jawToCheekRatio));
      && (1.2 <= faceRatio <= 1.3 ==>
        && (shape == "oval" <==> 0.8 <= jawToCheekRatio <= 1.0)
        && (shape == "heart" <==> jawToCheekRatio < 0.8)
        && (shape == "square" <==> 1.0 < jawToCheekRatio))
      && (faceRatio < 1.2 ==>
        && (shape == "round" <==> 0.9 < jawToCheekRatio)
        && (shape == "heart" <==> jawToCheekRatio <= 0.9))
      && (1.3 < faceRatio ==>
        && (shape == "oblong" <==> 0.9 < jawToCheekRatio)
        && (shape == "diamond" <==> jawToCheekRatio <= 0.9))
  {
  }

  /**
   * The measurements as `calculate_face_measurements` returns them, given the
   * three distances it takes with `np.linalg.norm`: the cheekbone width is
   * the face width (the eye corners stand in for both).
   */
  function Measurements(faceWidth: real, faceLength: real, jawWidth: real, foreheadWidth: real): (m: FaceMeasurements) {
    FaceMeasurements(faceWidth, faceLength, jawWidth, faceWidth, foreheadWidth)
  }

  /**
   * `classify_face_shape(measurements)`: the three ratios are computed first
   * (the forehead ratio is never tested), then the tree decides. On the numpy
   * values it is given nothing raises; plain Python numbers would raise
   * ZeroDivisionError on a zero width, which no caller passes.
   */
  function ClassifyFaceShape(m: FaceMeasurements): (shape: string)
    ensures shape in AnalyzerLabels
    ensures m.faceWidth != 0.0 && m.cheekboneWidth != 0.0 ==>
      shape == ClassifyRatios(Finite(m.faceLength / m.faceWidth), Finite(m.jawWidth / m.cheekboneWidth))
  {
    var faceRatio := Divide(m.faceLength, m.faceWidth);
    var jawToCheekRatio := Divide(m.jawWidth, m.cheekboneWidth);
    var foreheadToCheekRatio := Divide(m.foreheadWidth, m.cheekboneWidth);
    ClassifyRatios(faceRatio, jawToCheekRatio)
  }

  /** The `ratios` dictionary of the report, as float64 quotients. */
  datatype ReportedRatios = ReportedRatios(
    faceRatio: Quotient,
    jawToCheek: Quotient,
    foreheadToCheek: Quotient)

  /** The dictionary `analyze_face` returns. */
  datatype FaceAnalysis = FaceAnalysis(
    faceShape: string,
    measurements: FaceMeasurements,
    ratios: ReportedRatios)

  /**
   * `analyze_face`, from the measurements on: the reported face shape is the
   * classification, the reported ratios are the ones it classified, and each
   * is the float64 quotient of the measurements it names.
   */
  function AnalyzeFace(m: FaceMeasurements): (r: FaceAnalysis)
    ensures r.faceShape == ClassifyFaceShape(m)
    ensures r.faceShape == ClassifyRatios(r.ratios.faceRatio, r.ratios.jawToCheek)
    ensures r.measurements == m
    ensures r.ratios.faceRatio.Finite? <==> m.faceWidth != 0.0
    ensures r.ratios.faceRatio.Finite? ==> r.ratios.faceRatio.value * m.faceWidth == m.faceLength
    ensures r.ratios.jawToCheek.Finite? <==> m.cheekboneWidth != 0.0
    ensures r.ratios.jawToCheek.Finite? ==> r.ratios.jawToCheek.value * m.cheekboneWidth == m.jawWidth
    ensures r.ratios.foreheadToCheek.Finite? <==> m.cheekboneWidth != 0.0
    ensures r.ratios.foreheadToCheek.Finite? ==> r.ratios.foreheadToCheek.value * m.cheekboneWidth == m.foreheadWidth
  {
    FaceAnalysis(
      ClassifyFaceShape(m),
      m,
      ReportedRatios(
        Divide(m.faceLength, m.faceWidth),
        Divide(m.jawWidth, m.cheekboneWidth),
        Divide(m.foreheadWidth, m.cheekboneWidth)))
  }

  /** The forehead width never changes the classification. */
  lemma ForeheadIgnored(m: FaceMeasurements, foreheadWidth: real)
    ensures ClassifyFaceShape(m.(foreheadWidth := foreheadWidth)) == ClassifyFaceShape(m)
  {
  }

  /**
   * For measurements built as `calculate_face_measurements` builds them
   * (distances, so the length is not negative, and the cheekbone width is the
   * face width): a non-zero width decides on length/width and jaw/width; a
   * zero width makes both ratios infinite or NaN, which lands in the last
   * branch, "oblong" for a positive jaw width and "diamond" otherwise.
   */
  lemma ClassifyMeasured(faceWidth: real, faceLength: real, jawWidth: real, foreheadWidth: real)
    requires faceLength >= 0.0
    ensures var shape := ClassifyFaceShape(Measurements(faceWidth, faceLength, jawWidth, foreheadWidth));
      && (faceWidth != 0.0 ==> shape == ClassifyRatios(Finite(faceLength / faceWidth), Finite(jawWidth / faceWidth)))
      && (faceWidth == 0.0 ==> shape == if jawWidth > 0.0 then "oblong" else "diamond")
  {
  }
}
