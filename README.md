# FaceFit core, modelled in Dafny

FaceFit takes a photo of a face and recommends eyeglass frames. The photo comes from
a file picker, a drag-and-drop or a camera capture. The browser sends it to a Flask
backend, which classifies the face shape and ranks frame styles for it. This project
models the logic of that system that can be stated and proved. It does not model the
network, the camera or the computer-vision code.

- `glasses_recommender.dfy` (module `Recommender`): the `GlassesRecommender` class. It
  holds the two constant tables built by `__init__`: eight frame styles, and six face
  shapes, each with best and avoid lists. It also has `get_recommendations`, the
  four-level `_calculate_confidence` and `get_all_styles_for_face`. The tables are
  `const` fields. Their integrity is the class invariant `Valid()`, and the
  constructor proves it.
- `face_analyzer.dfy` (module `Analyzer`): `classify_face_shape`, the ratio decision
  tree, and the report that `analyze_face` builds around it.
- `face_detector.dfy` (module `Detector`): `calculate_face_shape`. It works from integer
  landmark coordinates, takes absolute differences and zero-guarded ratios, and ends in
  an if/elif chain.
- `results_view.dfy` (module `Results`): the pure parts of the results page. These are
  the shape glyph, the confidence colour and label, one card per recommendation, and
  the optional measurements panel.
- `app.dfy` (module `App`): the analysis-request state machine. Pure transition
  functions hold the invariant over reachable states. The `App` class has the one state
  record as a field, and every handler replaces the whole record.
- `app_simple.dfy` (module `AppSimple`): the single-file frontend variant, with the
  chosen file as a second field, and its page: banner, results or a file input.
- `photo_upload.dfy` (module `PhotoUpload`): the upload widget. It covers drag state,
  the MIME check, the camera session with its device tracks, and the three
  mutually exclusive views.
- `pipeline.dfy` (module `Pipeline`): facts that cross files. Every classifier label is
  a key of the recommender's table. The `/analyze` route's recommendations (three or four,
  confidences 0.9, 0.9, then 0.8) are proved, and so is the mock list hard-coded in the
  simple backend.
- `types.dfy` (module `Types`): the records shared by the backend's JSON and the
  frontend's TypeScript interfaces. A Python exception is modelled as an `Err` value.

Python floats and JavaScript numbers are Dafny `real`s. The analyzer's ratios are numpy
float64 quotients: a zero divisor gives an infinity or NaN instead of raising, and the model
gives such a quotient one of those values. Each asynchronous handler is
split at its `await`: the synchronous part is one method, and the continuation is
another that takes the outcome (result or error, stream or refusal, blob or none) as a
parameter.

### Behaviour worth noting

- `App-simple.tsx` does no MIME check: any chosen file is submitted.
- A rejected analysis can store an empty message (an `Error` with an empty `message`).
  An empty message hides the error banner, so the failed state is not always visible.
- Starting the camera does not clear a selected preview. After the camera stops, the
  preview shows again.
- `calculate_face_shape` can never return "oblong", although the analyzer and the
  recommender's shape table both include "oblong".
- A face whose outer eye corners coincide has face width zero. `analyze_face` then
  classifies it as "oblong" (jaw width positive) or "diamond" (jaw width zero), and it
  reports infinite or NaN ratios.

## Model

| member | source | states |
|---|---|---|
| `Recommender.PySlice` | backend/glasses_recommender.py:93 | `best_styles[:n]` is a prefix of the list: min(n, len) entries for n ≥ 0, len + n (at least 0) entries for a negative n |
| `Recommender.SortByConfidenceCorrect` | backend/glasses_recommender.py:136 | the stable descending sort is a permutation, puts entries in non-increasing confidence, and keeps the input order among entries of equal confidence |
| `Recommender.GlassesRecommender.constructor` | backend/glasses_recommender.py:2-85 | `__init__` builds exactly the eight-style database, its insertion order and the six-shape table, and they satisfy the integrity invariant |
| `Recommender.GlassesRecommender.InitializedIsValid` | backend/glasses_recommender.py:3-85 | every best or avoid style is a database key (so `glasses_database[style]` never raises), no best list repeats a style or shares one with the avoid list, and the database order lists each key once |
| `Recommender.GlassesRecommender.CalculateConfidence` | backend/glasses_recommender.py:108-119 | the confidence is 0.9 iff the style is among the first two best, 0.8 iff it is a later best style, 0.3 iff it is not best but to be avoided, and 0.6 otherwise |
| `Recommender.GlassesRecommender.GetRecommendations` | backend/glasses_recommender.py:87-106 | the loop returns exactly the specified list: one record per sliced best style, in order, or the empty list for an unknown shape |
| `Recommender.GlassesRecommender.RecommendationsContents` | backend/glasses_recommender.py:89-102 | an unknown shape gives []; for a known shape the length follows Python slicing, entry i has style best_styles[i], copies that style's name and description, and its reason is style_notes + " - " + the shape's notes |
| `Recommender.GlassesRecommender.RecommendationConfidences` | backend/glasses_recommender.py:93-115 | entries 0 and 1 have confidence 0.9 and every later entry 0.8 |
| `Recommender.GlassesRecommender.ScoreFor` | backend/glasses_recommender.py:126-133 | the `suitable` flag holds iff the face shape is in the style's `suitable_faces` |
| `Recommender.GlassesRecommender.GetAllStylesForFace` | backend/glasses_recommender.py:121-137 | the loop-then-sort returns exactly the specified result, including the KeyError of an unknown shape |
| `Recommender.GlassesRecommender.AllStylesForFaceCorrect` | backend/glasses_recommender.py:125-136 | for a known shape there is one entry per database style, each scored by the confidence rule and `suitable_faces`, in non-increasing confidence, with ties in database order |
| `Analyzer.Divide` | backend/face_analyzer.py:48-50 | a float64 quotient is finite iff the divisor is non-zero, and then times the divisor gives the dividend; a zero divisor gives +inf, -inf or NaN for a positive, negative or zero dividend |
| `Analyzer.ClassifyRatios` | backend/face_analyzer.py:53-69 | total and one of six labels, with float64 comparisons (a NaN fails each test); each branch of the tree as an iff over the comparisons that reach it |
| `Analyzer.ClassifyFiniteRatios` | backend/face_analyzer.py:53-69 | on finite ratios: for face_ratio in [1.2, 1.3], oval iff jaw/cheek in [0.8, 1.0], heart iff below 0.8, square iff above 1.0; below 1.2, round iff jaw/cheek > 0.9, else heart; above 1.3, oblong iff jaw/cheek > 0.9, else diamond |
| `Analyzer.ClassifyFaceShape` | backend/face_analyzer.py:46-69 | always one of the six labels; with non-zero face and cheekbone widths it is the tree applied to the two exact ratios |
| `Analyzer.ClassifyMeasured` | backend/face_analyzer.py:31-69 | with the cheekbone width set to the face width and a non-negative length: a non-zero width decides on length/width and jaw/width; a zero width gives "oblong" iff the jaw width is positive and "diamond" otherwise |
| `Analyzer.ForeheadIgnored` | backend/face_analyzer.py:50-69 | the forehead width, whose ratio is computed, never changes the classification |
| `Analyzer.AnalyzeFace` | backend/face_analyzer.py:71-84 | the reported face shape is the classification of the measurements, and the measurements are passed through. The reported ratios are the ones classified. Each ratio is finite iff its divisor is non-zero, and then it is the exact quotient |
| `Detector.MeasureWidths` | backend/face_detector.py:25-38 | the four widths are absolute differences of the named landmarks' coordinates, hence non-negative |
| `Detector.GuardedRatio` | backend/face_detector.py:41-43 | a zero denominator gives ratio 0 instead of an error, and otherwise ratio × denominator = numerator |
| `Detector.ClassifyDetected` | backend/face_detector.py:51-60 | one of five labels, never oblong; round iff width/length > 0.9 and oval iff < 0.7, regardless of the other ratios; inside [0.7, 0.9]: square iff jaw/face > 0.95, else heart iff cheek/face > 0.9 and jaw/face < 0.8, else diamond |
| `Detector.CalculateFaceShape` | backend/face_detector.py:17-60 | raises IndexError iff there are at most 454 landmarks, and otherwise returns one of the five labels |
| `Detector.DegenerateFaceIsOval` | backend/face_detector.py:41-54 | a face of zero width or zero length is always "oval" |
| `Detector.OutsideBandIgnoresJawAndCheeks` | backend/face_detector.py:51-54 | outside the band [0.7, 0.9] the jaw and cheek landmarks do not affect the label |
| `Results.FaceShapeIcon` | frontend/src/components/Results.tsx:10-20 | the six known shapes get their table glyph and every other label gets '👤' |
| `Results.ConfidenceColor` | frontend/src/components/Results.tsx:22-26 | #28a745 iff confidence ≥ 0.8, #ffc107 iff 0.6 ≤ confidence < 0.8, #dc3545 iff below 0.6 |
| `Results.ConfidenceText` | frontend/src/components/Results.tsx:28-34 | boundary-exact: Excellent iff ≥ 0.9, Great iff in [0.8, 0.9), Good iff in [0.7, 0.8), Fair iff in [0.6, 0.7), Poor iff below 0.6 |
| `Results.ConfidenceTextMonotone` | frontend/src/components/Results.tsx:28-34 | c1 ≤ c2 implies the label of c1 ranks no higher than that of c2 |
| `Results.ColorAgreesWithText` | frontend/src/components/Results.tsx:22-34 | green iff Excellent or Great, amber iff Good or Fair, red iff Poor |
| `Results.CardFor` | frontend/src/components/Results.tsx:89-127 | a card shows the recommendation's name, style, description and reason; its badge carries the confidence label, and the badge and the bar share one colour |
| `Results.Cards` | frontend/src/components/Results.tsx:88-128 | exactly one card per recommendation, in the given order |
| `Results.RenderResults` | frontend/src/components/Results.tsx:48-128 | the page shows the shape's glyph and the landmark count, a measurements panel iff `analysis_details` is present, and the cards `Cards` builds: one per recommendation, in order |
| `Results.MockedOvalResponse` | frontend/src/components/Results.tsx:10-34 | an oval result with 68 landmarks and one 0.85 recommendation shows '⭕', 68 and one green "Great Match" card |
| `App.ErrorMessage` | frontend/src/App.tsx:25 | an `Error` contributes its own message, and any other thrown value gives 'Analysis failed. Please try again.' |
| `App.Settled` | frontend/src/App.tsx:17-26 | a settled request is not loading and holds a result iff it resolved and an error message iff it was rejected |
| `App.ShownView` | frontend/src/App.tsx:65-72 | Results is shown iff a result is present, and otherwise PhotoUpload is shown with the loading flag |
| `App.ErrorBanner` | frontend/src/App.tsx:47-63 | the banner is shown iff the error is present and non-empty, and it shows that message |
| `App.Step` | frontend/src/App.tsx:14-32 | submitting yields {true, null, null}, settling yields the settled record, start-over yields {false, null, null}, and each replaces the whole record |
| `App.RunConsistent` | frontend/src/App.tsx:8-32 | in every state reachable by any sequence of events, result and error are never both present, and a loading state holds neither |
| `App.StartOverResets` | frontend/src/App.tsx:30-32 | after any history, start-over yields the initial state |
| `App.App.constructor` | frontend/src/App.tsx:8-12 | the initial state is {isLoading: false, result: null, error: null} |
| `App.App.HandleImageSelect` | frontend/src/App.tsx:14-15 | submitting an image sets {true, null, null} |
| `App.App.AnalysisSettled` | frontend/src/App.tsx:17-26 | a resolved call sets {false, result, null}; a rejected call sets {false, null, message} |
| `App.App.HandleStartOver` | frontend/src/App.tsx:30-32 | start-over restores the initial state whatever the prior state |
| `AppSimple.View` | frontend/src/App-simple.tsx:55-163 | the "Analysis Failed" banner iff the error is a non-empty string, showing it; results iff a result is present, with its face shape, landmark count and one card per recommendation in order; otherwise the file input, disabled and with a spinner exactly while loading |
| `AppSimple.ViewAgreesWithApp` | frontend/src/App-simple.tsx:55-161 | the simple page shows the same banner as App, shows results exactly where App shows Results, and its input is disabled exactly when App's upload view is loading |
| `AppSimple.LoadingDisablesInput` | frontend/src/App-simple.tsx:149-163 | in every state reachable from mount, while a request is in flight there is no banner and the file input is disabled with its spinner, so no second file can be submitted through it |
| `AppSimple.AppSimple.constructor` | frontend/src/App-simple.tsx:6-11 | the initial state is {false, null, null} with no selected file |
| `AppSimple.AppSimple.HandleImageSelect` | frontend/src/App-simple.tsx:13-14 | submitting sets the same loading record as App and keeps the selected file |
| `AppSimple.AppSimple.AnalysisSettled` | frontend/src/App-simple.tsx:16-26 | success and failure store exactly App's settled record, fallback message included |
| `AppSimple.AppSimple.HandleFileChange` | frontend/src/App-simple.tsx:29-35 | the first chosen file, of any type, becomes the selected file and starts the analysis; an empty selection changes nothing |
| `AppSimple.AppSimple.HandleStartOver` | frontend/src/App-simple.tsx:37-40 | start-over resets the analysis record and clears the selected file |
| `PhotoUpload.IsImageType` | frontend/src/components/PhotoUpload.tsx:45 | a type is accepted iff it begins with "image/" |
| `PhotoUpload.CameraFile` | frontend/src/components/PhotoUpload.tsx:90 | the captured file is named 'camera-photo.jpg', holds the blob, and its type passes the MIME check |
| `PhotoUpload.ShownView` | frontend/src/components/PhotoUpload.tsx:111-143 | the camera is shown iff showCamera; otherwise the preview iff an image is selected; otherwise the drop zone, so exactly one is shown |
| `PhotoUpload.PhotoUpload.constructor` | frontend/src/components/PhotoUpload.tsx:9-15 | no drag, no preview, no camera and no stream at mount |
| `PhotoUpload.PhotoUpload.View` | frontend/src/components/PhotoUpload.tsx:111-143 | the body rendered from the widget's fields: the camera view is up exactly while a stream is held |
| `PhotoUpload.PhotoUpload.HandleFile` | frontend/src/components/PhotoUpload.tsx:44-55 | an image file is forwarded to `onImageSelect` exactly once and starts one preview decode; any other file is forwarded nowhere and starts none |
| `PhotoUpload.PhotoUpload.PreviewLoaded` | frontend/src/components/PhotoUpload.tsx:46-50 | only a decode that `handleFile` started can finish; its data URL becomes the preview, and nothing else changes |
| `PhotoUpload.PhotoUpload.HandleDrag` | frontend/src/components/PhotoUpload.tsx:17-25 | dragenter and dragover set dragActive, dragleave clears it, and other event types leave it unchanged |
| `PhotoUpload.PhotoUpload.HandleDrop` | frontend/src/components/PhotoUpload.tsx:27-35 | a drop clears dragActive and forwards at most the first file, if it is an image; an empty drop forwards nothing |
| `PhotoUpload.PhotoUpload.HandleChange` | frontend/src/components/PhotoUpload.tsx:37-42 | the first chosen file goes through the MIME check, and an empty choice forwards nothing |
| `PhotoUpload.PhotoUpload.StartCamera` | frontend/src/components/PhotoUpload.tsx:61-75 | a granted stream is held and shown; a refusal changes nothing; a previously held stream is dropped without stopping its tracks |
| `PhotoUpload.PhotoUpload.StopCamera` | frontend/src/components/PhotoUpload.tsx:98-104 | every track of the held stream is stopped, then the stream is dropped and the camera closed; with no stream only the camera flag changes; if no track had leaked before, no acquired track stays live afterwards |
| `PhotoUpload.PhotoUpload.CapturePhoto` | frontend/src/components/PhotoUpload.tsx:77-96 | with refs and a blob, 'camera-photo.jpg' of type 'image/jpeg' is forwarded and the camera is stopped; without them nothing is forwarded, the stream and camera view stay, and the held tracks are untouched |
| `PhotoUpload.PhotoUpload.RemoveImage` | frontend/src/components/PhotoUpload.tsx:134-136 | Remove clears the preview |
| `PhotoUpload.PhotoUpload.StartCameraReleasingPrevious` | frontend/src/components/PhotoUpload.tsx:61-75 | the corrected start: the held stream is stopped before the new one is held, so no acquired device track is leaked; a refusal keeps the stream, the camera view and the held tracks untouched |
| `Pipeline.LabelsAreTableKeys` | backend/glasses_recommender.py:54-85 | every label of either classifier is a key of `face_shape_recommendations` |
| `Pipeline.BestListSizes` | backend/glasses_recommender.py:54-85 | every best list holds three or four styles |
| `Pipeline.AnalyzeRouteRecommends` | backend/app.py:65-69 | whatever the analyzer classifies, `get_recommendations(shape, 4)` returns three or four records, with confidences 0.9, 0.9, 0.8 and then 0.8 |
| `Pipeline.MockMatchesRecommender` | backend/app_simple.py:44-66 | the simple backend's hard-coded list equals `get_recommendations("oval", 3)` |
| `Pipeline.SuitableIndependentOfConfidence` | backend/glasses_recommender.py:125-133 | for a diamond face cat_eye scores 0.9, yet no style is marked suitable |
| `Pipeline.OvalAllStyles` | backend/glasses_recommender.py:121-137 | `get_all_styles_for_face("oval")` returns aviator and wayfarer (0.9), round and rectangular (0.8), then cat_eye, square, browline and oversized (0.6), all suitable |
| `Pipeline.AllEightStylesScored` | backend/glasses_recommender.py:121-137 | for every known face shape, `get_all_styles_for_face` returns eight entries |
| `Pipeline.AllStylesUnknownShapeRaises` | backend/glasses_recommender.py:108-126 | for an unknown face shape, `get_all_styles_for_face` raises KeyError |

## Findings

| source | as written | input that shows it | evidently intended | confidence | as-written member | corrected member |
|---|---|---|---|---|---|---|
| frontend/src/components/PhotoUpload.tsx:61-75 | `startCamera` overwrites `stream` without stopping a stream already held. The "Use Camera" button (lines 189-195) stays enabled while the camera view is shown. | Click "Use Camera" and grant access, then click it again and grant again: the first stream's track stays live and is no longer referenced. | Stop the held stream's tracks before holding the new one, so that the device is always released. | medium, not executed | `PhotoUpload.PhotoUpload.StartCamera`, shown by `PhotoUpload.SecondStartLeaksFirstStream` | `PhotoUpload.PhotoUpload.StartCameraReleasingPrevious` |

## Left out

- `calculate_face_measurements` and `detect_face_shape` are left out: they use numpy norms, MediaPipe landmark detection, cv2 image decoding and float pixel scaling. The classifiers take the measurements or integer coordinates as inputs.
- Floating-point rounding is not modelled. Finite ratios are exact reals, so a ratio that rounds onto or off a threshold is out of scope. The only non-finite values modelled are those from a zero divisor in the analyzer, and the model has no signed zero.
- `Analyzer.ClassifyFaceShape` takes the numpy values `calculate_face_measurements` returns. Plain Python numbers would raise ZeroDivisionError on a zero width, and no caller passes them.
- Sending infinite or NaN ratios in the `/analyze` response is left out, and so is how the frontend would parse them.
- The Flask routes in `backend/app.py` and `backend/app_simple.py` are left out, except for the composition at backend/app.py:69 and the mock list, which are lemmas.
- `frontend/src/services/api.ts` (the axios client with a 30 s timeout) is I/O. Its call appears only as a resolved-or-rejected outcome passed to the state machine.
- Browser asynchronous APIs are events with their outcome as a parameter: the FileReader decode, `getUserMedia`, `canvas.toBlob` and the video/canvas refs. Drawing the frame and attaching the stream to the video element are left out.
- Concurrency is left out: overlapping in-flight analyses and the `stream` captured by the `toBlob` callback's closure. Each completion is applied atomically to the current state.
- Number formatting is left out: `toFixed`, `Math.round(confidence * 100)` and the percentage bar widths.
- `alert`, `console` and `print` calls, JSX markup, styling and `frontend/tailwind.config.js` are left out.
- `onButtonClick` and the reset of the hidden input's value on Remove are DOM operations and are left out.
- `Results.FaceShapeIcon`: inherited JavaScript property names such as "toString" make `icons[shape]` return a function rather than '👤'. The model treats every label outside the table as unknown.
- `Recommender.GlassesRecommender.CalculateConfidence` requires a known face shape where Python would raise KeyError. Its only callers look the shape up first or, in `get_all_styles_for_face`, have the KeyError modelled.
- `Recommender.GlassesRecommender.GetRecommendations` takes `num_recommendations` explicitly. The Python default of 3 is not modelled.
- A `null` file list and an empty one are both modelled as an empty sequence.
- `Recommender.SortByConfidence` is an insertion sort rather than Timsort. Both are stable sorts, so they give the same result.
