/**
 * The single-file variant of the frontend, frontend/src/App-simple.tsx: the
 * same analysis record and transitions as App, plus the chosen file, and a
 * plain file input with no MIME check of its own.
 */
module AppSimple {
  import opened Types
  import App

  /** What `<main>` shows below the error banner. */
  datatype SimpleMain =
    | SimpleResults(faceShape: string, landmarksDetected: int, cards: seq<Recommendation>)
    | FileInput(disabled: bool, spinner: bool)

  /** The whole body of the simple page: an optional banner, then results or the file input. */
  datatype SimpleView = SimpleView(banner: Option<string>, main: SimpleMain)

  /**
   * The page for an analysis record: the "Analysis Failed" banner for a
   * truthy error; then the results, one card per recommendation, when a
   * result is present, and otherwise the file input, disabled with a spinner
   * below it while a request is in flight.
   */
  function View(s: AnalysisState): (v: SimpleView)
    ensures v.banner.Some? <==> s.error.Some? && s.error.value != ""
    ensures v.banner.Some? ==> v.banner.value == s.error.value
    ensures v.main.SimpleResults? <==> s.result.Some?
    ensures v.main.SimpleResults? ==>
      && v.main.faceShape == s.result.value.faceShape
      && v.main.landmarksDetected == s.result.value.landmarksDetected
      && v.main.cards == s.result.value.recommendations
    ensures v.main.FileInput? ==> (v.main.disabled <==> s.isLoading) && (v.main.spinner <==> s.isLoading)
  {
    var banner := match s.error
      case Some(message) => if message != "" then Some(message) else None
      case None => None;
    match s.result
    case Some(result) =>
      SimpleView(banner, SimpleResults(result.faceShape, result.landmarksDetected, result.recommendations))
    case None => SimpleView(banner, FileInput(s.isLoading, s.isLoading))
  }

  /** The simple page shows the same banner as App, and results exactly where App shows them. */
  lemma ViewAgreesWithApp(s: AnalysisState)
    ensures View(s).banner == App.ErrorBanner(s)
    ensures View(s).main.SimpleResults? <==> App.ShownView(s).ResultsShown?
    ensures View(s).main.FileInput? ==> View(s).main.disabled == App.ShownView(s).isLoading
  {
  }

  /**
   * In every state reachable from mount, while a request is in flight the
   * page shows no banner and the file input disabled with its spinner, so no
   * second file can be submitted through it.
   */
  lemma LoadingDisablesInput(events: seq<App.Event>)
    ensures var s := App.Run(App.Idle, events);
      s.isLoading ==> View(s) == SimpleView(None, FileInput(true, true))
  {
    App.RunConsistent(App.Idle, events);
  }

  class AppSimple {
    var analysisState: AnalysisState
    var selectedFile: Option<File>

    ghost predicate Valid()
      reads this
    {
      App.Consistent(analysisState)
    }

    constructor ()
      ensures Valid() && analysisState == App.Idle && selectedFile == None
    {
      analysisState := AnalysisState(false, None, None);
      selectedFile := None;
    }

    /** `handleImageSelect(file)` up to its `await`: the request starts, as in App. */
    method HandleImageSelect(file: File)
      requires Valid()
      modifies this
      ensures Valid() && analysisState == App.Loading && selectedFile == old(selectedFile)
    {
      analysisState := AnalysisState(true, None, None);
    }

    /** The continuation once `analyzeImage` settles, with App's fallback message. */
    method AnalysisSettled(outcome: App.AnalysisOutcome)
      requires Valid()
      modifies this
      ensures Valid() && analysisState == App.Settled(outcome) && selectedFile == old(selectedFile)
    {
      match outcome {
        case Resolved(result) =>
          analysisState := AnalysisState(false, Some(result), None);
        case Rejected(thrown) =>
          var message := if thrown.ErrorValue? then thrown.message else App.FallbackMessage;
          analysisState := AnalysisState(false, None, Some(message));
      }
    }

    /**
     * `handleFileChange`: the first chosen file, whatever its type, becomes
     * the selected file and is submitted; an empty selection changes nothing.
     */
    method HandleFileChange(files: seq<File>)
      requires Valid()
      modifies this
      ensures Valid()
      ensures |files| > 0 ==> selectedFile == Some(files[0]) && analysisState == App.Loading
      ensures |files| == 0 ==> selectedFile == old(selectedFile) && analysisState == old(analysisState)
    {
      if |files| > 0 {
        var file := files[0];
        selectedFile := Some(file);
        HandleImageSelect(file);
      }
    }

    /** `handleStartOver`: the initial record, and no selected file. */
    method HandleStartOver()
      requires Valid()
      modifies this
      ensures Valid() && analysisState == App.Idle && selectedFile == None
    {
      analysisState := AnalysisState(false, None, None);
      selectedFile := None;
    }
  }
}
