/**
 * Facts that connect the backend pieces: the labels each classifier emits
 * are keys of the recommender's face-shape table, so the `/analyze` route's
 * `get_recommendations(face_shape, num_recommendations=4)` (backend/app.py)
 * never comes back empty, plus concrete values of the tables `__init__` builds.
 */
module Pipeline {
  import opened Types
  import Recommender
  import Analyzer
  import Detector

  /** Every label either classifier can emit is a key of `face_shape_recommendations`. */
  lemma LabelsAreTableKeys()
    ensures Analyzer.AnalyzerLabels <= Recommender.FaceShapeTable.Keys
    ensures Detector.DetectorLabels <= Recommender.FaceShapeTable.Keys
  {
    assert Recommender.FaceShapeTable.Keys == {"oval", "round", "square", "heart", "oblong", "diamond"};
  }

  /** Every best list of the initial table holds three or four styles. */
  lemma BestListSizes(faceShape: string)
    requires faceShape in Recommender.FaceShapeTable
    ensures 3 <= |Recommender.FaceShapeTable[faceShape].bestStyles| <= 4
  {
    assert faceShape in {"oval", "round", "square", "heart", "oblong", "diamond"};
  }

  /**
   * The `/analyze` route: whatever the classifier decides, the four
   * requested recommendations come back as three or four records, the first
   * two at confidence 0.9 and the rest at 0.8.
   */
  lemma AnalyzeRouteRecommends(g: Recommender.GlassesRecommender, m: FaceMeasurements)
    requires g.Initialized() && g.Valid()
    ensures var r := g.Recommendations(Analyzer.ClassifyFaceShape(m), 4);
      && 3 <= |r| <= 4
      && forall i | 0 <= i < |r| :: r[i].confidence == if i < 2 then 0.9 else 0.8
  {
    var shape := Analyzer.ClassifyFaceShape(m);
    LabelsAreTableKeys();
    assert shape in Recommender.FaceShapeTable;
    BestListSizes(shape);
    g.RecommendationsContents(shape, 4);
    g.RecommendationConfidences(shape, 4);
  }

  const OvalNotes := "Oval faces can wear almost any style. Maintain the natural balance."

  /**
   * The three records backend/app_simple.py hard-codes for an oval face; each
   * reason is written here as the two notes it joins around " - ".
   */
  const MockOvalRecommendations: seq<Recommendation> := [
    Recommendation(
      "aviator",
      "Classic Aviator",
      "Timeless teardrop shape with thin metal frames",
      "Balances strong jawlines and adds width to narrow faces" + " - " + OvalNotes,
      0.9),
    Recommendation(
      "wayfarer",
      "Wayfarer",
      "Trapezoidal frame shape, slightly wider at top",
      "Versatile style that works with most face shapes" + " - " + OvalNotes,
      0.9),
    Recommendation(
      "rectangular",
      "Rectangular Frames",
      "Straight lines and sharp angles",
      "Adds structure and definition to soft face shapes" + " - " + OvalNotes,
      0.8)
  ]

  /** The hard-coded mock equals `get_recommendations("oval", 3)` on the real tables. */
  lemma MockMatchesRecommender(g: Recommender.GlassesRecommender)
    requires g.Initialized() && g.Valid()
    ensures g.Recommendations("oval", 3) == MockOvalRecommendations
  {
    var r := g.Recommendations("oval", 3);
    var best := g.faceShapeRecommendations["oval"].bestStyles;
    assert best == ["aviator", "wayfarer", "rectangular", "round"];
    assert |r| == 3;
    forall i | 0 <= i < 3 ensures r[i] == MockOvalRecommendations[i] {
      assert r[i] == g.RecommendationFor("oval", best[i]);
      MockRecord(g, i);
    }
  }

  lemma MockRecord(g: Recommender.GlassesRecommender, i: nat)
    requires g.Initialized() && i < 3
    ensures var style := MockOvalRecommendations[i].style;
      style in g.glassesDatabase && g.RecommendationFor("oval", style) == MockOvalRecommendations[i]
  {
    var best := g.faceShapeRecommendations["oval"].bestStyles;
    assert best == ["aviator", "wayfarer", "rectangular", "round"];
    assert Recommender.PySlice(best, 2) == ["aviator", "wayfarer"];
  }

  /**
   * `suitable` does not follow the confidence: for a diamond face cat_eye
   * scores 0.9, yet no style lists "diamond" among its suitable faces.
   */
  lemma SuitableIndependentOfConfidence(g: Recommender.GlassesRecommender)
    requires g.Initialized() && g.Valid()
    ensures g.ScoreFor("diamond", "cat_eye").confidence == 0.9
    ensures forall style | style in g.glassesDatabase :: !g.ScoreFor("diamond", style).suitable
  {
    var best := g.faceShapeRecommendations["diamond"].bestStyles;
    assert best == ["cat_eye", "aviator", "browline", "wayfarer"];
    assert Recommender.PySlice(best, 2) == ["cat_eye", "aviator"];
    forall style | style in g.glassesDatabase ensures !g.ScoreFor("diamond", style).suitable {
      NoStyleSuitsDiamond(style);
    }
  }

  lemma NoStyleSuitsDiamond(style: string)
    requires style in Recommender.GlassesDatabase
    ensures "diamond" !in Recommender.GlassesDatabase[style].suitableFaces
  {
    assert style in {"aviator", "round", "rectangular", "cat_eye", "square", "wayfarer", "browline", "oversized"};
  }

  /** For every face shape of the table, all eight styles are scored. */
  lemma AllEightStylesScored(g: Recommender.GlassesRecommender, faceShape: string)
    requires g.Initialized() && g.Valid()
    requires faceShape in g.faceShapeRecommendations
    ensures g.AllStylesForFace(faceShape).Ok?
    ensures |g.AllStylesForFace(faceShape).value| == 8
  {
    g.AllStylesForFaceCorrect(faceShape);
  }

  /** An unknown face shape makes `get_all_styles_for_face` raise KeyError. */
  lemma AllStylesUnknownShapeRaises(g: Recommender.GlassesRecommender, faceShape: string)
    requires g.Initialized() && g.Valid()
    requires faceShape !in g.faceShapeRecommendations
    ensures g.AllStylesForFace(faceShape) == Err(KeyError(faceShape))
  {
    assert g.styleOrder != [];
  }

  /**
   * `get_all_styles_for_face("oval")`: the two 0.9 styles, then the two 0.8
   * styles, then the four 0.6 styles, each group in database order; every
   * style lists "oval" among its suitable faces.
   */
  lemma OvalAllStyles(g: Recommender.GlassesRecommender)
    requires g.Initialized() && g.Valid()
    ensures g.AllStylesForFace("oval").Ok?
    ensures var r := g.AllStylesForFace("oval").value;
      && |r| == 8
      && r[0].style == "aviator" && r[1].style == "wayfarer"
      && r[2].style == "round" && r[3].style == "rectangular"
      && r[4].style == "cat_eye" && r[5].style == "square"
      && r[6].style == "browline" && r[7].style == "oversized"
      && r[0].confidence == 0.9 && r[1].confidence == 0.9
      && r[2].confidence == 0.8 && r[3].confidence == 0.8
      && (forall i | 4 <= i < 8 :: r[i].confidence == 0.6)
      && (forall i | 0 <= i < 8 :: r[i].suitable)
  {
    var scores := g.Scores("oval");
    OvalInfo(g);
    OvalScores(g);
    forall i | 0 <= i < 8 ensures scores[i].suitable && scores[i].confidence == OvalConfidences[i] {
      OvalScore(g, i);
    }
    OvalSortedFields(g);
  }

  /** The sorted oval list, read off the unsorted scores. */
  lemma OvalSortedFields(g: Recommender.GlassesRecommender)
    requires g.Valid() && "oval" in g.faceShapeRecommendations
    requires |g.Scores("oval")| == 8
    requires forall i | 0 <= i < 8 :: g.Scores("oval")[i].style == Recommender.StyleOrder[i]
    requires forall i | 0 <= i < 8 :: g.Scores("oval")[i].suitable
    requires forall i | 0 <= i < 8 :: g.Scores("oval")[i].confidence == OvalConfidences[i]
    ensures g.AllStylesForFace("oval").Ok?
    ensures var r := g.AllStylesForFace("oval").value;
      && |r| == 8
      && r[0].style == "aviator" && r[1].style == "wayfarer"
      && r[2].style == "round" && r[3].style == "rectangular"
      && r[4].style == "cat_eye" && r[5].style == "square"
      && r[6].style == "browline" && r[7].style == "oversized"
      && r[0].confidence == 0.9 && r[1].confidence == 0.9
      && r[2].confidence == 0.8 && r[3].confidence == 0.8
      && (forall i | 4 <= i < 8 :: r[i].confidence == 0.6)
      && (forall i | 0 <= i < 8 :: r[i].suitable)
  {
    OvalSorted(g);
    OvalStyleNames();
  }

  /** The stable sort moves wayfarer up behind aviator and keeps the rest in database order. */
  lemma OvalSorted(g: Recommender.GlassesRecommender)
    requires g.Valid() && "oval" in g.faceShapeRecommendations
    requires |g.Scores("oval")| == 8
    requires forall i | 0 <= i < 8 :: g.Scores("oval")[i].confidence == OvalConfidences[i]
    ensures var scores := g.Scores("oval");
      g.AllStylesForFace("oval")
        == Ok([scores[0], scores[5], scores[1], scores[2], scores[3], scores[4], scores[6], scores[7]])
  {
    var scores := g.Scores("oval");
    SortOvalScores(scores[0], scores[1], scores[2], scores[3], scores[4], scores[5], scores[6], scores[7]);
    assert scores == [scores[0], scores[1], scores[2], scores[3], scores[4], scores[5], scores[6], scores[7]];
  }

  lemma OvalStyleNames()
    ensures Recommender.StyleOrder[0] == "aviator" && Recommender.StyleOrder[5] == "wayfarer"
    ensures Recommender.StyleOrder[1] == "round" && Recommender.StyleOrder[2] == "rectangular"
    ensures Recommender.StyleOrder[3] == "cat_eye" && Recommender.StyleOrder[4] == "square"
    ensures Recommender.StyleOrder[6] == "browline" && Recommender.StyleOrder[7] == "oversized"
  {
  }

  /** The oval scores before sorting: one per database style, in database order. */
  lemma OvalScores(g: Recommender.GlassesRecommender)
    requires g.Initialized() && g.Valid()
    ensures var r := g.Scores("oval");
      |r| == 8 && forall i | 0 <= i < 8 :: r[i] == g.ScoreFor("oval", Recommender.StyleOrder[i])
  {
  }

  /** The confidences the oval scores carry, in database order. */
  const OvalConfidences: seq<real> := [0.9, 0.8, 0.8, 0.6, 0.6, 0.9, 0.6, 0.6]

  lemma OvalScore(g: Recommender.GlassesRecommender, i: nat)
    requires g.Initialized() && g.Valid() && i < 8
    ensures var r := g.ScoreFor("oval", Recommender.StyleOrder[i]);
      r.suitable && r.confidence == OvalConfidences[i]
  {
    var style := Recommender.StyleOrder[i];
    OvalInfo(g);
    OvalSuitable(style);
    OvalConfidenceOf(g, i);
  }

  lemma OvalInfo(g: Recommender.GlassesRecommender)
    requires g.Initialized()
    ensures "oval" in g.faceShapeRecommendations
    ensures g.faceShapeRecommendations["oval"].bestStyles == ["aviator", "wayfarer", "rectangular", "round"]
    ensures g.faceShapeRecommendations["oval"].avoid == []
  {
  }

  lemma OvalConfidenceOf(g: Recommender.GlassesRecommender, i: nat)
    requires "oval" in g.faceShapeRecommendations && i < 8
    requires g.faceShapeRecommendations["oval"].bestStyles == ["aviator", "wayfarer", "rectangular", "round"]
    requires g.faceShapeRecommendations["oval"].avoid == []
    ensures g.CalculateConfidence("oval", Recommender.StyleOrder[i]) == OvalConfidences[i]
  {
    assert Recommender.PySlice(["aviator", "wayfarer", "rectangular", "round"], 2) == ["aviator", "wayfarer"];
  }

  lemma OvalSuitable(style: string)
    requires style in Recommender.GlassesDatabase
    ensures "oval" in Recommender.GlassesDatabase[style].suitableFaces
  {
    assert style in {"aviator", "round", "rectangular", "cat_eye", "square", "wayfarer", "browline", "oversized"};
  }

  /** The stable descending sort of eight scores whose confidences follow the oval pattern. */
  lemma SortOvalScores(a: Recommender.StyleScore, b: Recommender.StyleScore, c: Recommender.StyleScore,
                       d: Recommender.StyleScore, e: Recommender.StyleScore, f: Recommender.StyleScore,
                       h: Recommender.StyleScore, k: Recommender.StyleScore)
    requires a.confidence == 0.9 && f.confidence == 0.9
    requires b.confidence == 0.8 && c.confidence == 0.8
    requires d.confidence == 0.6 && e.confidence == 0.6 && h.confidence == 0.6 && k.confidence == 0.6
    ensures Recommender.SortByConfidence([a, b, c, d, e, f, h, k]) == [a, f, b, c, d, e, h, k]
  {
    var s := [a, b, c, d, e, f, h, k];
    assert s[7..] == [k] && s[7..][1..] == [];
    assert Recommender.SortByConfidence(s[7..]) == [k];
    assert s[6..][1..] == s[7..];
    assert Recommender.SortByConfidence(s[6..]) == [h, k];
    assert s[5..][1..] == s[6..];
    assert Recommender.SortByConfidence(s[5..]) == [f, h, k];
    assert s[4..][1..] == s[5..];
    assert Recommender.InsertByConfidence(e, [h, k]) == [e, h, k];
    assert Recommender.SortByConfidence(s[4..]) == [f, e, h, k];
    assert s[3..][1..] == s[4..];
    assert Recommender.InsertByConfidence(d, [e, h, k]) == [d, e, h, k];
    assert Recommender.SortByConfidence(s[3..]) == [f, d, e, h, k];
    assert s[2..][1..] == s[3..];
    assert Recommender.InsertByConfidence(c, [d, e, h, k]) == [c, d, e, h, k];
    assert Recommender.SortByConfidence(s[2..]) == [f, c, d, e, h, k];
    assert s[1..][1..] == s[2..];
    assert Recommender.InsertByConfidence(b, [c, d, e, h, k]) == [b, c, d, e, h, k];
    assert Recommender.SortByConfidence(s[1..]) == [f, b, c, d, e, h, k];
  }
}
