/**
 * The submission side of the meal-analysis component: when the "Analyze Meal"
 * button is enabled, the request body, the text of the failure toast, and the
 * outcome of one attempt as a function of the two suspension outcomes.
 */
module Submission {
  import opened Wrappers
  import opened MealTypes

  const FUNCTION_NAME: string := "analyze-meal"
  const SUCCESS_TITLE: string := "Analysis Complete"
  const SUCCESS_DESCRIPTION: string := "Your meal has been analyzed successfully"
  const FAILURE_TITLE: string := "Analysis Failed"
  const FALLBACK_MESSAGE: string := "Failed to analyze meal. Please try again."
  const NO_DATA_MESSAGE: string := "No analysis data received"

  /**
   * The button's `disabled` expression, negated: the button is disabled while
   * analyzing, or when there is neither an image nor any ingredient text.
   */
  function AnalyzeEnabled(v: ViewState): (enabled: bool)
    ensures enabled <==> !v.isAnalyzing && (v.selectedImage.Some? || v.manualIngredients != "")
  {
    !(v.isAnalyzing || (v.selectedImage.None? && v.manualIngredients == ""))
  }

  /**
   * The body of the remote call: the encoded image or null, the ingredient
   * text or null when it is empty (`manualIngredients || null`), and the
   * profile as given.
   */
  function BuildRequest(imageData: Option<string>, text: string, profile: UserProfile): (req: AnalysisRequest)
    ensures req.imageData == imageData
    ensures req.ingredients.None? <==> text == ""
    ensures req.ingredients.Some? ==> req.ingredients.value == text
    ensures req.userProfile == profile
  {
    AnalysisRequest(imageData, if text == "" then None else Some(text), profile)
  }

  /** The ingredient text a request carries, with null read back as "". */
  function IngredientText(req: AnalysisRequest): string {
    req.ingredients.GetOr("")
  }

  /** A request that carries some meal: an image or ingredient text. */
  predicate HasMealInput(req: AnalysisRequest) {
    req.imageData.Some? || req.ingredients.Some?
  }

  /** The toast description of a caught error: its message, or the fallback when it is absent or empty. */
  function FailureDescription(e: ErrorValue): (d: string)
    ensures d != ""
    ensures e.message.Some? && e.message.value != "" ==> d == e.message.value
    ensures e.message.None? || e.message.value == "" ==> d == FALLBACK_MESSAGE
  {
    if e.message.Some? && e.message.value != "" then e.message.value else FALLBACK_MESSAGE
  }

  /** How one attempt ends: with the stored analysis, or with the error the catch block receives. */
  datatype Outcome = Succeeded(result: AnalysisResult) | Failed(error: ErrorValue)

  /** One attempt: the request it sends, if it gets that far, and how it ends. */
  datatype Attempt = Attempt(request: Option<AnalysisRequest>, outcome: Outcome)

  /**
   * The reference definition of one run of the analysis. An image, when
   * selected, is encoded first; a failed read ends the attempt before any
   * remote call. Otherwise the request is sent, and a remote error, a
   * response without `analysis`, or a response with it decides the outcome.
   */
  function RunAttempt(image: Option<ImageFile>, text: string, profile: UserProfile,
                      encoding: EncodeOutcome, remote: RemoteOutcome): (a: Attempt)
    ensures a.request.Some? <==> image.None? || encoding.Encoded?
    ensures a.request.Some? ==>
      a.request.value == BuildRequest(if image.Some? then Some(encoding.dataUrl) else None, text, profile)
    ensures a.outcome.Succeeded? <==> a.request.Some? && remote.Responded? && remote.analysis.Some?
    ensures a.outcome.Succeeded? ==> a.outcome.result == remote.analysis.value
    ensures a.request.None? ==> a.outcome == Failed(ErrorValue(None))
    ensures a.request.Some? && remote.RemoteError? ==> a.outcome == Failed(remote.error)
    ensures a.request.Some? && remote == Responded(None) ==> a.outcome == Failed(ErrorValue(Some(NO_DATA_MESSAGE)))
  {
    if image.Some? && encoding.ReadFailed? then
      Attempt(None, Failed(ErrorValue(None)))
    else
      var imageData := if image.Some? then Some(encoding.dataUrl) else None;
      var outcome := match remote
        case RemoteError(e) => Failed(e)
        case Responded(Some(analysis)) => Succeeded(analysis)
        case Responded(None) => Failed(ErrorValue(Some(NO_DATA_MESSAGE)));
      Attempt(Some(BuildRequest(imageData, text, profile)), outcome)
  }

  /** How many times the attempt suspends: once for the image read, once for the remote call. */
  function PauseCount(image: Option<ImageFile>, a: Attempt): nat {
    (if image.Some? then 1 else 0) + (if a.request.Some? then 1 else 0)
  }

  /** The one toast an attempt ends with. */
  function ToastFor(outcome: Outcome): (t: Toast)
    ensures t.destructive <==> outcome.Failed?
    ensures t.title == (if outcome.Succeeded? then SUCCESS_TITLE else FAILURE_TITLE)
    ensures outcome.Succeeded? ==> t.description == SUCCESS_DESCRIPTION
    ensures outcome.Failed? ==> t.description == FailureDescription(outcome.error)
  {
    match outcome
    case Succeeded(_) => Toast(SUCCESS_TITLE, SUCCESS_DESCRIPTION, false)
    case Failed(e) => Toast(FAILURE_TITLE, FailureDescription(e), true)
  }

  /** The text of the one toast an attempt ends with, in terms of the two suspension outcomes. */
  lemma AttemptToastText(image: Option<ImageFile>, text: string, profile: UserProfile,
                         encoding: EncodeOutcome, remote: RemoteOutcome)
    ensures var t := ToastFor(RunAttempt(image, text, profile, encoding, remote).outcome);
      && (image.Some? && encoding.ReadFailed? ==> t == Toast(FAILURE_TITLE, FALLBACK_MESSAGE, true))
      && ((image.Some? ==> encoding.Encoded?) && remote.RemoteError? ==>
            t == Toast(FAILURE_TITLE, FailureDescription(remote.error), true))
      && ((image.Some? ==> encoding.Encoded?) && remote == Responded(None) ==>
            t == Toast(FAILURE_TITLE, NO_DATA_MESSAGE, true))
      && ((image.Some? ==> encoding.Encoded?) && remote.Responded? && remote.analysis.Some? ==>
            t == Toast(SUCCESS_TITLE, SUCCESS_DESCRIPTION, false))
  {
  }

  /** The request keeps the typed text: reading null back as "" gives the text exactly. */
  lemma IngredientTextRoundTrip(imageData: Option<string>, text: string, profile: UserProfile)
    ensures IngredientText(BuildRequest(imageData, text, profile)) == text
  {
  }

  /**
   * A request sent after the button was enabled always carries a meal. The
   * attempt itself does not check this: started with no image and no text it
   * would send a request with both parts null.
   */
  lemma EnabledAttemptCarriesMeal(v: ViewState, profile: UserProfile, encoding: EncodeOutcome, remote: RemoteOutcome)
    ensures var a := RunAttempt(v.selectedImage, v.manualIngredients, profile, encoding, remote);
      a.request.Some? ==>
        (HasMealInput(a.request.value) <==> v.selectedImage.Some? || v.manualIngredients != "")
    ensures AnalyzeEnabled(v) ==>
      var a := RunAttempt(v.selectedImage, v.manualIngredients, profile, encoding, remote);
      a.request.Some? ==> HasMealInput(a.request.value)
  {
  }
}
