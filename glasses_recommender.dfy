/**
 * The glasses recommender of backend/glasses_recommender.py: two constant
 * tables (eight frame styles, six face shapes with their best and avoid
 * lists), a ranked recommendation per face shape, a four-level confidence
 * rule, and a score for every style sorted by confidence.
 */
module Recommender {
  import opened Types

  /** One entry of `glasses_database`. */
  datatype GlassesInfo = GlassesInfo(
    name: string,
    description: string,
    suitableFaces: seq<string>,
    styleNotes: string)

  /** One entry of `face_shape_recommendations`. */
  datatype ShapeInfo = ShapeInfo(
    bestStyles: seq<string>,
    avoid: seq<string>,
    notes: string)

  /** One entry of the list built by `get_all_styles_for_face`. */
  datatype StyleScore = StyleScore(
    style: string,
    name: string,
    description: string,
    confidence: real,
    suitable: bool)

  /** The value of Python's `s[:stop]`: a negative stop counts from the end. */
  function PySlice<T>(s: seq<T>, stop: int): (r: seq<T>)
    ensures r <= s
    ensures 0 <= stop ==> |r| == if stop < |s| then stop else |s|
    ensures stop < 0 ==> |r| == if 0 <= |s| + stop then |s| + stop else 0
  {
    if 0 <= stop then
      if stop < |s| then s[..stop] else s
    else
      if 0 <= |s| + stop then s[..|s| + stop] else []
  }

  predicate NoDuplicates<T(==)>(s: seq<T>) {
    forall i, j | 0 <= i < j < |s| :: s[i] != s[j]
  }

  /** `glasses_database` as `__init__` sets it. */
  const GlassesDatabase: map<string, GlassesInfo> := map[
    "aviator" := GlassesInfo(
      "Classic Aviator",
      "Timeless teardrop shape with thin metal frames",
      ["oval", "square", "heart"],
      "Balances strong jawlines and adds width to narrow faces"),
    "round" := GlassesInfo(
      "Round Frames",
      "Circular lenses with various frame materials",
      ["oval", "square", "oblong"],
      "Softens angular features and complements geometric face shapes"),
    "rectangular" := GlassesInfo(
      "Rectangular Frames",
      "Straight lines and sharp angles",
      ["round", "oval", "heart"],
      "Adds structure and definition to soft face shapes"),
    "cat_eye" := GlassesInfo(
      "Cat Eye",
      "Upswept outer corners with vintage appeal",
      ["round", "square", "oval"],
      "Lifts features and adds sophistication"),
    "square" := GlassesInfo(
      "Square Frames",
      "Bold, geometric design with thick frames",
      ["round", "oval", "heart"],
      "Adds definition and contemporary style"),
    "wayfarer" := GlassesInfo(
      "Wayfarer",
      "Trapezoidal frame shape, slightly wider at top",
      ["oval", "round", "heart", "oblong"],
      "Versatile style that works with most face shapes"),
    "browline" := GlassesInfo(
      "Browline",
      "Prominent upper frame that mimics eyebrows",
      ["oval", "round", "heart"],
      "Adds definition to the upper face"),
    "oversized" := GlassesInfo(
      "Oversized",
      "Large frames that make a fashion statement",
      ["oval", "square", "oblong"],
      "Creates drama and covers more face area")
  ]

  /** The insertion order of `glasses_database`, which `.items()` follows. */
  const StyleOrder: seq<string> :=
    ["aviator", "round", "rectangular", "cat_eye", "square", "wayfarer", "browline", "oversized"]

  /** `face_shape_recommendations` as `__init__` sets it. */
  const FaceShapeTable: map<string, ShapeInfo> := map[
    "oval" := ShapeInfo(
      ["aviator", "wayfarer", "rectangular", "round"],
      [],
      "Oval faces can wear almost any style. Maintain the natural balance."),
    "round" := ShapeInfo(
      ["rectangular", "square", "cat_eye", "browline"],
      ["round"],
      "Add angles and structure to complement the soft curves."),
    "square" := ShapeInfo(
      ["round", "aviator", "cat_eye", "oversized"],
      ["square", "rectangular"],
      "Soften strong jawlines with curved frames."),
    "heart" := ShapeInfo(
      ["aviator", "rectangular", "wayfarer", "browline"],
      ["cat_eye"],
      "Balance a wider forehead with frames that add width to the lower face."),
    "oblong" := ShapeInfo(
      ["wayfarer", "round", "oversized"],
      ["rectangular"],
      "Add width and break up the length of the face."),
    "diamond" := ShapeInfo(
      ["cat_eye", "aviator", "browline", "wayfarer"],
      ["rectangular"],
      "Highlight the eyes and add width to forehead and chin.")
  ]

  /** Entries in non-increasing confidence. */
  predicate NonIncreasing(s: seq<StyleScore>) {
    forall i, j | 0 <= i < j < |s| :: s[i].confidence >= s[j].confidence
  }

  /** The entries of `s` whose confidence is `c`, in their order in `s`. */
  function WithConfidence(s: seq<StyleScore>, c: real): (r: seq<StyleScore>)
    ensures |r| <= |s|
    ensures forall k | 0 <= k < |r| :: r[k].confidence == c
  {
    if s == [] then []
    else (if s[0].confidence == c then [s[0]] else []) + WithConfidence(s[1..], c)
  }

  /**
   * Inserts `x` in front of the first entry whose confidence is not greater
   * than its own: entries that compare equal to `x` stay behind it.
   */
  function InsertByConfidence(x: StyleScore, s: seq<StyleScore>): (r: seq<StyleScore>) {
    if s == [] then [x]
    else if x.confidence >= s[0].confidence then [x] + s
    else [s[0]] + InsertByConfidence(x, s[1..])
  }

  /**
   * `list.sort(key=lambda x: x["confidence"], reverse=True)`: Python's sort is
   * stable, and a stable sort has exactly one possible result, which this
   * insertion sort computes.
   */
  function SortByConfidence(s: seq<StyleScore>): (r: seq<StyleScore>) {
    if s == [] then [] else InsertByConfidence(s[0], SortByConfidence(s[1..]))
  }

  lemma {:induction false} InsertByConfidencePermutes(x: StyleScore, s: seq<StyleScore>)
    ensures multiset(InsertByConfidence(x, s)) == multiset(s) + multiset{x}
  {
    if s != [] && x.confidence < s[0].confidence {
      InsertByConfidencePermutes(x, s[1..]);
      assert s == [s[0]] + s[1..];
    }
  }

  lemma {:induction false} InsertByConfidenceSorted(x: StyleScore, s: seq<StyleScore>)
    requires NonIncreasing(s)
    ensures |InsertByConfidence(x, s)| == |s| + 1
    ensures InsertByConfidence(x, s)[0] == x || InsertByConfidence(x, s)[0] == s[0]
    ensures NonIncreasing(InsertByConfidence(x, s))
  {
    if s != [] && x.confidence < s[0].confidence {
      var t := InsertByConfidence(x, s[1..]);
      InsertByConfidenceSorted(x, s[1..]);
      var r := [s[0]] + t;
      assert t[0].confidence <= s[0].confidence;
      forall i, j | 0 <= i < j < |r| ensures r[i].confidence >= r[j].confidence {
        if i == 0 {
          assert r[j] == t[j - 1];
          assert t[0].confidence >= t[j - 1].confidence || j - 1 == 0;
        } else {
          assert r[i] == t[i - 1] && r[j] == t[j - 1];
        }
      }
    }
  }

  /** Inserting `x` keeps it ahead of every entry of equal confidence. */
  lemma WithConfidenceCons(x: StyleScore, s: seq<StyleScore>, c: real)
    ensures WithConfidence([x] + s, c) == (if x.confidence == c then [x] else []) + WithConfidence(s, c)
  {
    assert ([x] + s)[0] == x && ([x] + s)[1..] == s;
  }

  lemma {:induction false} InsertByConfidenceStable(x: StyleScore, s: seq<StyleScore>, c: real)
    ensures WithConfidence(InsertByConfidence(x, s), c) == WithConfidence([x] + s, c)
  {
    if s != [] && x.confidence < s[0].confidence {
      var t := InsertByConfidence(x, s[1..]);
      InsertByConfidenceStable(x, s[1..], c);
      WithConfidenceCons(s[0], t, c);
      WithConfidenceCons(x, s[1..], c);
      WithConfidenceCons(x, s, c);
      WithConfidenceCons(s[0], s[1..], c);
      assert s == [s[0]] + s[1..];
    }
  }

  /**
   * The sort is a permutation, in non-increasing confidence, and keeps the
   * relative order of entries whose confidences are equal.
   */
  lemma {:induction false} SortByConfidenceCorrect(s: seq<StyleScore>)
    ensures NonIncreasing(SortByConfidence(s))
    ensures multiset(SortByConfidence(s)) == multiset(s)
    ensures forall c :: WithConfidence(SortByConfidence(s), c) == WithConfidence(s, c)
  {
    if s != [] {
      var t := SortByConfidence(s[1..]);
      SortByConfidenceCorrect(s[1..]);
      InsertByConfidencePermutes(s[0], t);
      InsertByConfidenceSorted(s[0], t);
      assert s == [s[0]] + s[1..];
      forall c ensures WithConfidence(SortByConfidence(s), c) == WithConfidence(s, c) {
        InsertByConfidenceStable(s[0], t, c);
        assert ([s[0]] + t)[1..] == t;
        assert WithConfidence([s[0]] + t, c) == (if s[0].confidence == c then [s[0]] else []) + WithConfidence(t, c);
      }
    }
  }

  class GlassesRecommender {
    const glassesDatabase: map<string, GlassesInfo>
    /** The order in which `glasses_database.items()` yields the styles. */
    const styleOrder: seq<string>
    const faceShapeRecommendations: map<string, ShapeInfo>

    /** The tables are the ones `__init__` builds. */
    predicate Initialized() {
      glassesDatabase == GlassesDatabase
      && styleOrder == StyleOrder
      && faceShapeRecommendations == FaceShapeTable
    }

    /**
     * Table integrity: every best or avoid style is a key of the database (so
     * the lookups never raise), no best list repeats a style or shares one
     * with its avoid list, and the database order lists each key once.
     */
    ghost predicate Valid() {
      NoDuplicates(styleOrder)
      && (forall i | 0 <= i < |styleOrder| :: styleOrder[i] in glassesDatabase)
      && (forall style | style in glassesDatabase :: style in styleOrder)
      && forall shape | shape in faceShapeRecommendations :: ShapeInfoValid(faceShapeRecommendations[shape])
    }

    ghost predicate ShapeInfoValid(info: ShapeInfo) {
      NoDuplicates(info.bestStyles)
      && (forall style | style in info.bestStyles :: style in glassesDatabase && style !in info.avoid)
      && (forall style | style in info.avoid :: style in glassesDatabase)
    }

    constructor ()
      ensures Initialized() && Valid()
    {
      glassesDatabase := GlassesDatabase;
      styleOrder := StyleOrder;
      faceShapeRecommendations := FaceShapeTable;
      new;
      InitializedIsValid();
    }

    /** The tables `__init__` builds satisfy the integrity conditions. */
    lemma InitializedIsValid()
      requires Initialized()
      ensures Valid()
    {
      forall shape | shape in faceShapeRecommendations
        ensures ShapeInfoValid(faceShapeRecommendations[shape])
      {
        var info := FaceShapeTable[shape];
        assert shape in {"oval", "round", "square", "heart", "oblong", "diamond"};
      }
    }

    /**
     * `_calculate_confidence`: 0.9 for the first two best styles, 0.8 for the
     * other best styles, 0.3 for a style to avoid, 0.6 for anything else. An
     * unknown face shape raises KeyError, which no caller lets happen.
     */
    function CalculateConfidence(faceShape: string, style: string): (c: real)
      requires faceShape in faceShapeRecommendations
      ensures var info := faceShapeRecommendations[faceShape];
        && (c == 0.9 <==> style in PySlice(info.bestStyles, 2))
        && (c == 0.8 <==> style in info.bestStyles && style !in PySlice(info.bestStyles, 2))
        && (c == 0.3 <==> style !in info.bestStyles && style in info.avoid)
        && (c == 0.6 <==> style !in info.bestStyles && style !in info.avoid)
    {
      var shapeInfo := faceShapeRecommendations[faceShape];
      if style in PySlice(shapeInfo.bestStyles, 2) then 0.9
      else if style in shapeInfo.bestStyles then 0.8
      else if style in shapeInfo.avoid then 0.3
      else 0.6
    }

    /** The record `get_recommendations` appends for one best style. */
    function RecommendationFor(faceShape: string, style: string): (r: Recommendation)
      requires faceShape in faceShapeRecommendations && style in glassesDatabase
    {
      var info := glassesDatabase[style];
      Recommendation(
        style,
        info.name,
        info.description,
        info.styleNotes + " - " + faceShapeRecommendations[faceShape].notes,
        CalculateConfidence(faceShape, style))
    }

    /** What `get_recommendations(face_shape, num_recommendations)` returns. */
    ghost function Recommendations(faceShape: string, numRecommendations: int): (r: seq<Recommendation>)
      requires Valid()
    {
      if faceShape !in faceShapeRecommendations then []
      else
        var best := PySlice(faceShapeRecommendations[faceShape].bestStyles, numRecommendations);
        seq(|best|, i requires 0 <= i < |best| => RecommendationFor(faceShape, best[i]))
    }

    /** `get_recommendations`: one record per best style, in ranked order. */
    method GetRecommendations(faceShape: string, numRecommendations: int) returns (recommendations: seq<Recommendation>)
      requires Valid()
      ensures recommendations == Recommendations(faceShape, numRecommendations)
    {
      if faceShape !in faceShapeRecommendations {
        return [];
      }
      var shapeInfo := faceShapeRecommendations[faceShape];
      var bestStyles := PySlice(shapeInfo.bestStyles, numRecommendations);
      recommendations := [];
      for i := 0 to |bestStyles|
        invariant |recommendations| == i
        invariant forall k | 0 <= k < i :: recommendations[k] == RecommendationFor(faceShape, bestStyles[k])
      {
        var style := bestStyles[i];
        var glassesInfo := glassesDatabase[style];
        recommendations := recommendations + [Recommendation(
          style,
          glassesInfo.name,
          glassesInfo.description,
          glassesInfo.styleNotes + " - " + shapeInfo.notes,
          CalculateConfidence(faceShape, style))];
      }
    }

    /**
     * An unknown face shape gives no recommendations; for a known one the
     * list is the shape's best styles cut as `best_styles[:n]` cuts them, and
     * each record copies the style's name and description and joins its notes
     * to the shape's.
     */
    lemma RecommendationsContents(faceShape: string, n: int)
      requires Valid()
      ensures faceShape !in faceShapeRecommendations ==> Recommendations(faceShape, n) == []
      ensures faceShape in faceShapeRecommendations ==>
        var info := faceShapeRecommendations[faceShape];
        var r := Recommendations(faceShape, n);
        && |r| == (if 0 <= n then (if n < |info.bestStyles| then n else |info.bestStyles|)
                   else (if 0 <= |info.bestStyles| + n then |info.bestStyles| + n else 0))
        && forall i | 0 <= i < |r| ::
             && r[i].style == info.bestStyles[i]
             && r[i].style in glassesDatabase
             && r[i].name == glassesDatabase[r[i].style].name
             && r[i].description == glassesDatabase[r[i].style].description
             && r[i].reason == glassesDatabase[r[i].style].styleNotes + " - " + info.notes
    {
    }

    /**
     * The first two recommendations have confidence 0.9 and every later one
     * 0.8: a best style is never also to be avoided, and no best list repeats
     * a style.
     */
    lemma RecommendationConfidences(faceShape: string, n: int)
      requires Valid()
      ensures var r := Recommendations(faceShape, n);
        forall i | 0 <= i < |r| :: r[i].confidence == if i < 2 then 0.9 else 0.8
    {
      var r := Recommendations(faceShape, n);
      if faceShape in faceShapeRecommendations {
        var info := faceShapeRecommendations[faceShape];
        assert ShapeInfoValid(info);
        var best := PySlice(info.bestStyles, n);
        forall i | 0 <= i < |r| ensures r[i].confidence == if i < 2 then 0.9 else 0.8 {
          var style := best[i];
          assert style == info.bestStyles[i];
          var top := PySlice(info.bestStyles, 2);
          if i < 2 {
            assert top[i] == style;
          }
        }
      }
    }

    /** The record `get_all_styles_for_face` appends for one database style. */
    function ScoreFor(faceShape: string, style: string): (s: StyleScore)
      requires faceShape in faceShapeRecommendations && style in glassesDatabase
      ensures s.style == style
      ensures s.suitable <==> faceShape in glassesDatabase[style].suitableFaces
    {
      var info := glassesDatabase[style];
      StyleScore(style, info.name, info.description, CalculateConfidence(faceShape, style),
        faceShape in info.suitableFaces)
    }

    /** The list `get_all_styles_for_face` builds before sorting: database order. */
    ghost function Scores(faceShape: string): (r: seq<StyleScore>)
      requires Valid() && faceShape in faceShapeRecommendations
    {
      seq(|styleOrder|, i requires 0 <= i < |styleOrder| => ScoreFor(faceShape, styleOrder[i]))
    }

    /**
     * What `get_all_styles_for_face(face_shape)` returns or raises: the
     * first confidence lookup raises KeyError for an unknown face shape.
     */
    ghost function AllStylesForFace(faceShape: string): (r: Result<seq<StyleScore>>)
      requires Valid()
    {
      if faceShape in faceShapeRecommendations then Ok(SortByConfidence(Scores(faceShape)))
      else if styleOrder == [] then Ok([])
      else Err(KeyError(faceShape))
    }

    /** `get_all_styles_for_face`: score every style in database order, then sort. */
    method GetAllStylesForFace(faceShape: string) returns (result: Result<seq<StyleScore>>)
      requires Valid()
      ensures result == AllStylesForFace(faceShape)
    {
      var allRecommendations: seq<StyleScore> := [];
      for i := 0 to |styleOrder|
        invariant faceShape !in faceShapeRecommendations ==> i == 0
        invariant |allRecommendations| == i
        invariant faceShape in faceShapeRecommendations ==>
          forall k | 0 <= k < i :: allRecommendations[k] == ScoreFor(faceShape, styleOrder[k])
      {
        var style := styleOrder[i];
        var glassesInfo := glassesDatabase[style];
        if faceShape !in faceShapeRecommendations {
          return Err(KeyError(faceShape));
        }
        var confidence := CalculateConfidence(faceShape, style);
        allRecommendations := allRecommendations + [StyleScore(
          style,
          glassesInfo.name,
          glassesInfo.description,
          confidence,
          faceShape in glassesInfo.suitableFaces)];
      }
      assert faceShape in faceShapeRecommendations ==> allRecommendations == Scores(faceShape);
      result := Ok(SortByConfidence(allRecommendations));
    }

    /**
     * For a known face shape: one entry per database style, each scored as
     * `_calculate_confidence` and `suitable_faces` say, in non-increasing
     * confidence, and entries of equal confidence in database order.
     */
    lemma AllStylesForFaceCorrect(faceShape: string)
      requires Valid() && faceShape in faceShapeRecommendations
      ensures AllStylesForFace(faceShape).Ok?
      ensures var r := AllStylesForFace(faceShape).value;
        && |r| == |styleOrder|
        && (forall style | style in glassesDatabase :: exists i | 0 <= i < |r| :: r[i].style == style)
        && (forall i | 0 <= i < |r| :: r[i].style in glassesDatabase && r[i] == ScoreFor(faceShape, r[i].style))
        && NonIncreasing(r)
        && forall c :: WithConfidence(r, c) == WithConfidence(Scores(faceShape), c)
    {
      var s := Scores(faceShape);
      var r := SortByConfidence(s);
      SortByConfidenceCorrect(s);
      assert |r| == |multiset(r)| == |multiset(s)| == |s|;
      forall style | style in glassesDatabase ensures exists i | 0 <= i < |r| :: r[i].style == style {
        var k :| 0 <= k < |styleOrder| && styleOrder[k] == style;
        assert s[k] in multiset(r);
        var i :| 0 <= i < |r| && r[i] == s[k];
      }
      forall i | 0 <= i < |r| ensures r[i].style in glassesDatabase && r[i] == ScoreFor(faceShape, r[i].style) {
        assert r[i] in multiset(s);
        var k :| 0 <= k < |s| && s[k] == r[i];
      }
    }
  }
}
