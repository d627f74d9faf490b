/**
 * The render rules of the meal-analysis component: the button label, the
 * upload box, and which result sections are shown with which contents and
 * badge variants. Layout, styling and icons are not modelled.
 */
module Display {
  import opened Wrappers
  import opened MealTypes

  const ANALYZING_LABEL: string := "Analyzing..."
  const IDLE_LABEL: string := "Analyze Meal"
  const FOOD_SEPARATOR: string := " + "
  const SEVERITY_SUFFIX: string := " severity"
  const SAFETY_PREFIX: string := "Overall Safety: "

  datatype BadgeVariant = Default | Secondary | Destructive

  /** What the upload box shows: the preview image or the upload placeholder. */
  datatype UploadBox = PreviewImage(src: string) | Placeholder

  /** One rendered dangerous combination. */
  datatype CombinationView = CombinationView(title: string, reason: string, badge: BadgeVariant, badgeText: string)

  /** The overall-safety badge. */
  datatype SafetyBadge = SafetyBadge(variant: BadgeVariant, text: string)

  /** The recommendations card; `None` for a part that is not rendered. */
  datatype RecommendationsView = RecommendationsView(
    safety: Option<SafetyBadge>,
    itemsToRemove: Option<seq<string>>,
    itemsToAdd: Option<seq<string>>,
    notes: Option<string>)

  /** The rendered result panel; `None` for a section that is not rendered. */
  datatype ResultView = ResultView(
    detectedFoods: Option<seq<string>>,
    dangerousCombinations: Option<seq<CombinationView>>,
    medicalConcerns: Option<seq<MedicalConcern>>,
    religiousConcerns: Option<seq<string>>,
    recommendations: Option<RecommendationsView>)

  /** The button shows a busy label exactly while an analysis runs. */
  function ButtonLabel(v: ViewState): (caption: string)
    ensures caption == ANALYZING_LABEL <==> v.isAnalyzing
    ensures caption == IDLE_LABEL <==> !v.isAnalyzing
  {
    if v.isAnalyzing then ANALYZING_LABEL else IDLE_LABEL
  }

  /** The preview is shown when a non-empty preview URL is held. */
  function Upload(preview: Option<string>): (box: UploadBox)
    ensures box.PreviewImage? <==> preview.Some? && preview.value != ""
    ensures box.PreviewImage? ==> box.src == preview.value
  {
    if preview.Some? && preview.value != "" then PreviewImage(preview.value) else Placeholder
  }

  /**
   * A list section is rendered when its field is present and non-empty, and
   * then shows the items exactly as received: an absent and an empty list
   * both render nothing.
   */
  function Visible<T>(field: Option<seq<T>>): (shown: Option<seq<T>>)
    ensures shown.Some? <==> field.Some? && |field.value| > 0
    ensures shown.Some? ==> shown.value == field.value
  {
    if field.Some? && |field.value| > 0 then field else None
  }

  /** A text part is rendered when present and non-empty. */
  function VisibleText(field: Option<string>): (shown: Option<string>)
    ensures shown.Some? <==> field.Some? && field.value != ""
    ensures shown.Some? ==> shown.value == field.value
  {
    if field.Some? && field.value != "" then field else None
  }

  /** `Array.prototype.join`: the items with `sep` between neighbours. */
  function Join(items: seq<string>, sep: string): (s: string)
    decreases |items|
  {
    if |items| == 0 then ""
    else if |items| == 1 then items[0]
    else items[0] + sep + Join(items[1..], sep)
  }

  /**
   * Splitting at each leftmost occurrence of the food separator, as
   * `String.prototype.split(" + ")` does; used to show that a joined title
   * keeps every food, in order.
   */
  function Split(s: string): (parts: seq<string>)
    ensures |parts| >= 1
    decreases |s|
  {
    if |s| == 0 then [""]
    else if |s| >= 3 && s[..3] == FOOD_SEPARATOR then [""] + Split(s[3..])
    else
      var rest := Split(s[1..]);
      [[s[0]] + rest[0]] + rest[1..]
  }

  /**
   * The combination's title: its foods joined by " + ". No foods give the
   * empty title; otherwise it starts with the first food, followed by the
   * separator when more foods come.
   */
  function CombinationTitle(foods: seq<string>): (title: string)
    ensures foods == [] ==> title == ""
    ensures |foods| > 0 ==> foods[0] <= title
    ensures |foods| > 1 ==>
      var n := |foods[0]|;
      |title| >= n + 3 && title[n..n + 3] == FOOD_SEPARATOR
  {
    Join(foods, FOOD_SEPARATOR)
  }

  /** The severity badge is destructive for "high" and secondary for anything else. */
  function SeverityBadge(severity: string): (variant: BadgeVariant)
    ensures variant == Destructive <==> severity == "high"
    ensures variant != Default
  {
    if severity == "high" then Destructive else Secondary
  }

  /** The overall-safety badge: shown when the value is non-empty, default for "safe", destructive otherwise. */
  function Safety(overallSafety: Option<string>): (badge: Option<SafetyBadge>)
    ensures badge.Some? <==> overallSafety.Some? && overallSafety.value != ""
    ensures badge.Some? ==> (badge.value.variant == Default <==> overallSafety.value == "safe")
    ensures badge.Some? ==> badge.value.variant != Secondary
    ensures badge.Some? ==> badge.value.text == SAFETY_PREFIX + overallSafety.value
  {
    if overallSafety.Some? && overallSafety.value != "" then
      Some(SafetyBadge(if overallSafety.value == "safe" then Default else Destructive,
                       SAFETY_PREFIX + overallSafety.value))
    else None
  }

  function RenderCombination(c: Combination): (view: CombinationView)
    ensures view.title == CombinationTitle(c.foods)
    ensures view.badge == Destructive <==> c.severity == "high"
    ensures view.reason == c.reason
    ensures view.badgeText == c.severity + SEVERITY_SUFFIX
  {
    CombinationView(CombinationTitle(c.foods), c.reason, SeverityBadge(c.severity), c.severity + SEVERITY_SUFFIX)
  }

  function RenderRecommendations(r: Recommendations): (view: RecommendationsView)
    ensures view.safety == Safety(r.overallSafety)
    ensures view.itemsToRemove.Some? <==> r.itemsToRemove.Some? && |r.itemsToRemove.value| > 0
    ensures view.itemsToRemove.Some? ==> view.itemsToRemove.value == r.itemsToRemove.value
    ensures view.itemsToAdd.Some? <==> r.itemsToAdd.Some? && |r.itemsToAdd.value| > 0
    ensures view.itemsToAdd.Some? ==> view.itemsToAdd.value == r.itemsToAdd.value
    ensures view.notes.Some? <==> r.notes.Some? && r.notes.value != ""
    ensures view.notes.Some? ==> view.notes.value == r.notes.value
  {
    RecommendationsView(Safety(r.overallSafety), Visible(r.itemsToRemove), Visible(r.itemsToAdd), VisibleText(r.notes))
  }

  function RenderResult(r: AnalysisResult): (view: ResultView)
    ensures view.detectedFoods.Some? <==> r.detectedFoods.Some? && |r.detectedFoods.value| > 0
    ensures view.detectedFoods.Some? ==> view.detectedFoods.value == r.detectedFoods.value
    ensures view.dangerousCombinations.Some? <==> r.dangerousCombinations.Some? && |r.dangerousCombinations.value| > 0
    ensures view.dangerousCombinations.Some? ==>
      var cs := r.dangerousCombinations.value;
      |view.dangerousCombinations.value| == |cs| &&
      forall i :: 0 <= i < |cs| ==> view.dangerousCombinations.value[i] == RenderCombination(cs[i])
    ensures view.medicalConcerns.Some? <==> r.medicalConcerns.Some? && |r.medicalConcerns.value| > 0
    ensures view.medicalConcerns.Some? ==> view.medicalConcerns.value == r.medicalConcerns.value
    ensures view.religiousConcerns.Some? <==> r.religiousConcerns.Some? && |r.religiousConcerns.value| > 0
    ensures view.religiousConcerns.Some? ==> view.religiousConcerns.value == r.religiousConcerns.value
    ensures view.recommendations.Some? <==> r.recommendations.Some?
    ensures view.recommendations.Some? ==> view.recommendations.value == RenderRecommendations(r.recommendations.value)
  {
    var combinations := match Visible(r.dangerousCombinations)
      case None => None
      case Some(cs) => Some(seq(|cs|, i requires 0 <= i < |cs| => RenderCombination(cs[i])));
    var recommendations := match r.recommendations
      case None => None
      case Some(rec) => Some(RenderRecommendations(rec));
    ResultView(Visible(r.detectedFoods), combinations, Visible(r.medicalConcerns),
               Visible(r.religiousConcerns), recommendations)
  }

  /** The result panel is rendered exactly when a result is held. */
  function ResultPanel(result: Option<AnalysisResult>): (panel: Option<ResultView>)
    ensures panel.Some? <==> result.Some?
    ensures panel.Some? ==> panel.value == RenderResult(result.value)
  {
    match result
    case None => None
    case Some(r) => Some(RenderResult(r))
  }

  /** A list that is absent and one that is empty render the same panel. */
  lemma AbsentListRendersAsEmpty(r: AnalysisResult)
    ensures RenderResult(r.(detectedFoods := None)) == RenderResult(r.(detectedFoods := Some([])))
    ensures RenderResult(r.(dangerousCombinations := None)) == RenderResult(r.(dangerousCombinations := Some([])))
    ensures RenderResult(r.(medicalConcerns := None)) == RenderResult(r.(medicalConcerns := Some([])))
    ensures RenderResult(r.(religiousConcerns := None)) == RenderResult(r.(religiousConcerns := Some([])))
    ensures r.recommendations.Some? ==>
      var rec := r.recommendations.value;
      && RenderRecommendations(rec.(itemsToRemove := None)) == RenderRecommendations(rec.(itemsToRemove := Some([])))
      && RenderRecommendations(rec.(itemsToAdd := None)) == RenderRecommendations(rec.(itemsToAdd := Some([])))
  {
  }

  /**
   * Splitting right after a food that holds no '+' keeps that food whole at
   * the head of the first part, provided what follows does not start with '+'.
   */
  lemma {:induction false} SplitAfterFood(w: string, t: string)
    requires '+' !in w
    requires |t| == 0 || t[0] != '+'
    ensures Split(w + t) == [w + Split(t)[0]] + Split(t)[1..]
    decreases |w|
  {
    if |w| == 0 {
      var parts := Split(t);
      assert w + t == t;
      assert w + parts[0] == parts[0];
      assert [parts[0]] + parts[1..] == parts;
    } else {
      var s := w + t;
      assert s[1..] == w[1..] + t;
      assert '+' !in w[1..] by {
        forall k | 0 <= k < |w[1..]| ensures w[1..][k] != '+' {
          assert w[1..][k] == w[k + 1];
        }
      }
      if |s| >= 3 {
        assert s[1] != '+' by {
          if |w| >= 2 { assert s[1] == w[1]; } else { assert s[1] == t[0]; }
        }
        assert s[..3][1] == s[1];
      }
      SplitAfterFood(w[1..], t);
      assert [s[0]] + (w[1..] + Split(t)[0]) == w + Split(t)[0];
    }
  }

  /**
   * The title of a combination loses nothing: when no food holds a '+',
   * splitting the title at " + " gives back every food, in order.
   */
  lemma {:induction false} CombinationTitleRoundTrip(foods: seq<string>)
    requires |foods| > 0
    requires forall i :: 0 <= i < |foods| ==> '+' !in foods[i]
    ensures Split(CombinationTitle(foods)) == foods
    decreases |foods|
  {
    if |foods| == 1 {
      SplitAfterFood(foods[0], "");
      assert foods[0] + "" == foods[0];
    } else {
      var rest := Join(foods[1..], FOOD_SEPARATOR);
      CombinationTitleRoundTrip(foods[1..]);
      var t := FOOD_SEPARATOR + rest;
      assert t[..3] == FOOD_SEPARATOR;
      assert t[3..] == rest;
      assert Split(t) == [""] + foods[1..];
      SplitAfterFood(foods[0], t);
      assert foods[0] + t == CombinationTitle(foods);
      assert foods[0] + "" == foods[0];
      assert [foods[0]] + foods[1..] == foods;
    }
  }
}
