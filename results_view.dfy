/**
 * The pure presentation logic of frontend/src/components/Results.tsx: the
 * face-shape glyph, the three-colour and five-label confidence scales, one
 * card per recommendation, and the optional measurements panel.
 */
module Results {
  import opened Types

  const Green := "#28a745"
  const Amber := "#ffc107"
  const Red := "#dc3545"

  const Excellent := "Excellent Match"
  const Great := "Great Match"
  const Good := "Good Match"
  const Fair := "Fair Match"
  const Poor := "Poor Match"

  /** The glyph shown for any label outside the table. */
  const DefaultIcon := "👤"

  /** The `icons` table of `getFaceShapeIcon`. */
  const FaceShapeIcons: map<string, string> := map[
    "oval" := "⭕",
    "round" := "🔴",
    "square" := "⬜",
    "heart" := "💖",
    "oblong" := "📏",
    "diamond" := "💎"
  ]

  /** `getFaceShapeIcon`: the table's glyph, or the default for any other label. */
  function FaceShapeIcon(shape: string): (icon: string)
    ensures shape in FaceShapeIcons ==> icon == FaceShapeIcons[shape]
    ensures shape !in FaceShapeIcons ==> icon == DefaultIcon
    ensures icon != ""
  {
    if shape in FaceShapeIcons && FaceShapeIcons[shape] != "" then FaceShapeIcons[shape] else DefaultIcon
  }

  /** `getConfidenceColor`: green from 0.8, amber from 0.6, red below. */
  function ConfidenceColor(confidence: real): (color: string)
    ensures color == Green <==> 0.8 <= confidence
    ensures color == Amber <==> 0.6 <= confidence < 0.8
    ensures color == Red <==> confidence < 0.6
  {
    if confidence >= 0.8 then Green
    else if confidence >= 0.6 then Amber
    else Red
  }

  /** `getConfidenceText`: five labels with boundaries 0.9, 0.8, 0.7 and 0.6, each included above. */
  function ConfidenceText(confidence: real): (text: string)
    ensures text == Excellent <==> 0.9 <= confidence
    ensures text == Great <==> 0.8 <= confidence < 0.9
    ensures text == Good <==> 0.7 <= confidence < 0.8
    ensures text == Fair <==> 0.6 <= confidence < 0.7
    ensures text == Poor <==> confidence < 0.6
  {
    if confidence >= 0.9 then Excellent
    else if confidence >= 0.8 then Great
    else if confidence >= 0.7 then Good
    else if confidence >= 0.6 then Fair
    else Poor
  }

  /** The rank of a label, from Poor (0) to Excellent (4). */
  function Tier(text: string): (rank: nat) {
    if text == Excellent then 4
    else if text == Great then 3
    else if text == Good then 2
    else if text == Fair then 1
    else 0
  }

  /** A higher confidence never gets a lower label. */
  lemma ConfidenceTextMonotone(c1: real, c2: real)
    requires c1 <= c2
    ensures Tier(ConfidenceText(c1)) <= Tier(ConfidenceText(c2))
  {
  }

  /** The colour and the label agree: green for Excellent and Great, amber for Good and Fair, red for Poor. */
  lemma ColorAgreesWithText(c: real)
    ensures ConfidenceColor(c) == Green <==> ConfidenceText(c) in {Excellent, Great}
    ensures ConfidenceColor(c) == Amber <==> ConfidenceText(c) in {Good, Fair}
    ensures ConfidenceColor(c) == Red <==> ConfidenceText(c) == Poor
  {
  }

  /** What one recommendation card shows, percentages aside. */
  datatype Card = Card(
    name: string,
    badgeText: string,
    badgeColor: string,
    style: string,
    description: string,
    reason: string,
    barColor: string)

  function CardFor(rec: Recommendation): (card: Card)
    ensures card.name == rec.name && card.style == rec.style
    ensures card.description == rec.description && card.reason == rec.reason
    ensures card.badgeText == ConfidenceText(rec.confidence)
    ensures card.badgeColor == card.barColor == ConfidenceColor(rec.confidence)
  {
    var color := ConfidenceColor(rec.confidence);
    Card(rec.name, ConfidenceText(rec.confidence), color, rec.style, rec.description, rec.reason, color)
  }

  /** `result.recommendations.map(...)`: one card per recommendation, in the given order. */
  function Cards(recs: seq<Recommendation>): (cards: seq<Card>)
    ensures |cards| == |recs|
    ensures forall i | 0 <= i < |recs| :: cards[i] == CardFor(recs[i])
  {
    seq(|recs|, i requires 0 <= i < |recs| => CardFor(recs[i]))
  }

  /** The rendered results page, formatting of numbers aside. */
  datatype ResultsView = ResultsView(
    icon: string,
    faceShape: string,
    landmarksDetected: int,
    measurementsPanel: Option<FaceRatios>,
    cards: seq<Card>)

  /** `Results`: the measurements panel appears only when `analysis_details` is present. */
  function RenderResults(result: FaceAnalysisResult): (view: ResultsView)
    ensures view.icon == FaceShapeIcon(result.faceShape)
    ensures view.faceShape == result.faceShape && view.landmarksDetected == result.landmarksDetected
    ensures view.measurementsPanel.Some? <==> result.analysisDetails.Some?
    ensures view.measurementsPanel.Some? ==> view.measurementsPanel.value == result.analysisDetails.value.ratios
    ensures |view.cards| == |result.recommendations|
    ensures forall i | 0 <= i < |view.cards| ::
      view.cards[i].name == result.recommendations[i].name
      && view.cards[i].badgeColor == view.cards[i].barColor
    ensures view.cards == Cards(result.recommendations)
  {
    ResultsView(
      FaceShapeIcon(result.faceShape),
      result.faceShape,
      result.landmarksDetected,
      match result.analysisDetails
        case Some(details) => Some(details.ratios)
        case None => None,
      Cards(result.recommendations))
  }

  /**
   * The mocked response: face shape "oval", 68 landmarks and one
   * "rectangular" recommendation at 0.85 render the oval glyph, the count,
   * and one green "Great Match" card.
   */
  lemma MockedOvalResponse()
    ensures var rec := Recommendation("rectangular", "Bold Rectangle", "", "", 0.85);
      var view := RenderResults(FaceAnalysisResult(true, "oval", 68, [rec], None, None));
      && view.icon == "⭕"
      && view.landmarksDetected == 68
      && |view.cards| == 1
      && view.cards[0].badgeText == Great
      && view.cards[0].badgeColor == Green
  {
  }
}
