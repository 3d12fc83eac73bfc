/**
 * Records shared by the FaceFit backend (as the JSON its Python code builds)
 * and the frontend (as the TypeScript interfaces in frontend/src/types.ts),
 * plus the value used to model a Python exception as a result.
 */
module Types {

  /** An optional value: `None` stands for JavaScript `null` / `undefined`. */
  datatype Option<+T> = None | Some(value: T)

  /** The Python exceptions the backend core can raise. */
  datatype PyError =
    | KeyError(key: string)
    | IndexError(index: int)

  /** The outcome of a Python call: its return value, or the exception it raised. */
  datatype Result<+T> = Ok(value: T) | Err(error: PyError)

  /** One glasses recommendation (`GlassesRecommendation`). */
  datatype Recommendation = Recommendation(
    style: string,
    name: string,
    description: string,
    reason: string,
    confidence: real)

  /** The five measurements the analyzer takes from the landmarks (`FaceMeasurements`). */
  datatype FaceMeasurements = FaceMeasurements(
    faceWidth: real,
    faceLength: real,
    jawWidth: real,
    cheekboneWidth: real,
    foreheadWidth: real)

  /** The three ratios the analyzer reports (`FaceRatios`). */
  datatype FaceRatios = FaceRatios(
    faceRatio: real,
    jawToCheek: real,
    foreheadToCheek: real)

  datatype AnalysisDetails = AnalysisDetails(
    measurements: FaceMeasurements,
    ratios: FaceRatios)

  /** The body of a successful `POST /analyze` (`FaceAnalysisResult`). */
  datatype FaceAnalysisResult = FaceAnalysisResult(
    success: bool,
    faceShape: string,
    landmarksDetected: int,
    recommendations: seq<Recommendation>,
    analysisDetails: Option<AnalysisDetails>,
    error: Option<string>)

  /** The lifecycle record of one analysis request (`AnalysisState`). */
  datatype AnalysisState = AnalysisState(
    isLoading: bool,
    result: Option<FaceAnalysisResult>,
    error: Option<string>)

  /** A browser `File`: its name, its declared MIME type and its bytes. */
  datatype File = File(name: string, mimeType: string, contents: seq<bv8>)
}
