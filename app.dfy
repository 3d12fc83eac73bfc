/**
 * The analysis-request lifecycle of frontend/src/App.tsx. The component's one
 * state record is a field that every handler replaces wholesale. The call to
 * the analysis service is I/O: `handleImageSelect` is split at its `await`
 * into the synchronous part and the continuation, which receives the call's
 * outcome as a parameter.
 */
module App {
  import opened Types

  /** What a rejected `analyzeImage` call can throw: an `Error` with its message, or any other value. */
  datatype Thrown = ErrorValue(message: string) | OtherValue

  /** How the awaited `analyzeImage(file)` settles. */
  datatype AnalysisOutcome = Resolved(result: FaceAnalysisResult) | Rejected(thrown: Thrown)

  const FallbackMessage := "Analysis failed. Please try again."

  /** The state at mount and after "start over". */
  const Idle := AnalysisState(false, None, None)

  /** The state while a request is in flight. */
  const Loading := AnalysisState(true, None, None)

  /** `error instanceof Error ? error.message : 'Analysis failed. Please try again.'` */
  function ErrorMessage(thrown: Thrown): (message: string)
    ensures thrown.ErrorValue? ==> message == thrown.message
    ensures thrown.OtherValue? ==> message == FallbackMessage && message != ""
  {
    match thrown
    case ErrorValue(m) => m
    case OtherValue => FallbackMessage
  }

  /** The record the continuation of `handleImageSelect` stores once the call settles. */
  function Settled(outcome: AnalysisOutcome): (s: AnalysisState)
    ensures !s.isLoading
    ensures s.result.Some? <==> outcome.Resolved?
    ensures s.error.Some? <==> outcome.Rejected?
    ensures outcome.Resolved? ==> s.result.value == outcome.result
    ensures outcome.Rejected? ==> s.error.value == ErrorMessage(outcome.thrown)
  {
    match outcome
    case Resolved(result) => AnalysisState(false, Some(result), None)
    case Rejected(thrown) => AnalysisState(false, None, Some(ErrorMessage(thrown)))
  }

  /**
   * The invariant of every reachable state: a result and an error are never
   * both present, and a loading state holds neither.
   */
  predicate Consistent(s: AnalysisState) {
    !(s.result.Some? && s.error.Some?)
    && (s.isLoading ==> s.result.None? && s.error.None?)
  }

  /** What `<main>` shows below the error banner. */
  datatype MainView = ResultsShown(result: FaceAnalysisResult) | UploadShown(isLoading: bool)

  /** `analysisState.result ? <Results .../> : <PhotoUpload isLoading=... />` */
  function ShownView(s: AnalysisState): (v: MainView)
    ensures v.ResultsShown? <==> s.result.Some?
    ensures v.ResultsShown? ==> v.result == s.result.value
    ensures v.UploadShown? ==> v.isLoading == s.isLoading
  {
    match s.result
    case Some(result) => ResultsShown(result)
    case None => UploadShown(s.isLoading)
  }

  /**
   * `analysisState.error && ...`: the banner and its message are shown only
   * for a truthy error, so an empty message hides it.
   */
  function ErrorBanner(s: AnalysisState): (banner: Option<string>)
    ensures banner.Some? <==> s.error.Some? && s.error.value != ""
    ensures banner.Some? ==> banner.value == s.error.value
  {
    match s.error
    case Some(message) => if message != "" then Some(message) else None
    case None => None
  }

  /** The events that change the record, each applied atomically. */
  datatype Event = ImageSelected(file: File) | AnalysisSettled(outcome: AnalysisOutcome) | StartOver

  /** The record after one event: every handler replaces the whole record. */
  function Step(s: AnalysisState, e: Event): (t: AnalysisState)
    ensures e.ImageSelected? ==> t == Loading
    ensures e.AnalysisSettled? ==> t == Settled(e.outcome)
    ensures e.StartOver? ==> t == Idle
  {
    match e
    case ImageSelected(_) => Loading
    case AnalysisSettled(outcome) => Settled(outcome)
    case StartOver => Idle
  }

  /** The record after a sequence of events. */
  function Run(s: AnalysisState, events: seq<Event>): (t: AnalysisState)
    decreases |events|
  {
    if events == [] then s else Run(Step(s, events[0]), events[1..])
  }

  /** Every state reachable from mount is consistent. */
  lemma {:induction false} RunConsistent(s: AnalysisState, events: seq<Event>)
    requires Consistent(s)
    ensures Consistent(Run(s, events))
    decreases |events|
  {
    if events != [] {
      var t := Step(s, events[0]);
      assert Consistent(t);
      RunConsistent(t, events[1..]);
    }
  }

  /** Whatever happened before, "start over" yields the initial state. */
  lemma StartOverResets(events: seq<Event>)
    ensures Run(Idle, events + [StartOver]) == Idle
  {
    RunAppend(Idle, events, StartOver);
  }

  lemma {:induction false} RunAppend(s: AnalysisState, events: seq<Event>, e: Event)
    ensures Run(s, events + [e]) == Step(Run(s, events), e)
    decreases |events|
  {
    if events != [] {
      assert (events + [e])[1..] == events[1..] + [e];
      RunAppend(Step(s, events[0]), events[1..], e);
    } else {
      assert [e][1..] == [];
    }
  }

  class App {
    var analysisState: AnalysisState

    ghost predicate Valid()
      reads this
    {
      Consistent(analysisState)
    }

    constructor ()
      ensures Valid() && analysisState == Idle
    {
      analysisState := Idle;
    }

    /** `handleImageSelect(file)` up to its `await`: the request starts. */
    method HandleImageSelect(file: File)
      requires Valid()
      modifies this
      ensures Valid() && analysisState == Loading
    {
      analysisState := AnalysisState(true, None, None);
    }

    /** The continuation of `handleImageSelect` once `analyzeImage` resolves or rejects. */
    method AnalysisSettled(outcome: AnalysisOutcome)
      requires Valid()
      modifies this
      ensures Valid() && analysisState == Settled(outcome)
    {
      match outcome {
        case Resolved(result) =>
          analysisState := AnalysisState(false, Some(result), None);
        case Rejected(thrown) =>
          var message := if thrown.ErrorValue? then thrown.message else FallbackMessage;
          analysisState := AnalysisState(false, None, Some(message));
      }
    }

    /** `handleStartOver`: back to the initial state, whatever came before. */
    method HandleStartOver()
      requires Valid()
      modifies this
      ensures Valid() && analysisState == Idle
    {
      analysisState := AnalysisState(false, None, None);
    }
  }
}
