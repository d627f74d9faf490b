/**
 * The meal-analysis component as an object whose fields are its state hooks.
 * Its event handlers update the fields step by step; the toasts it shows, the
 * remote calls it makes, the preview reads it starts and the state at each
 * suspension are recorded in ghost fields.
 */
module Component {
  import opened Wrappers
  import opened MealTypes
  import opened Submission

  class MealAnalysis {
    var selectedImage: Option<ImageFile>
    var imagePreview: Option<string>
    var manualIngredients: string
    var isAnalyzing: bool
    var analysisResult: Option<AnalysisResult>

    /** Every toast shown, oldest first. */
    ghost var toasts: seq<Toast>
    /** Every remote call made, oldest first. */
    ghost var invocations: seq<Invocation>
    /** Every file whose preview read was started, oldest first. */
    ghost var previewReads: seq<ImageFile>
    /** The state as the page shows it at each suspension of an analysis. */
    ghost var pauses: seq<ViewState>

    function View(): ViewState
      reads this
    {
      ViewState(selectedImage, imagePreview, manualIngredients, isAnalyzing, analysisResult)
    }

    /** The initial values of the five state hooks. */
    constructor ()
      ensures View() == ViewState(None, None, "", false, None)
      ensures toasts == [] && invocations == [] && previewReads == [] && pauses == []
    {
      selectedImage := None;
      imagePreview := None;
      manualIngredients := "";
      isAnalyzing := false;
      analysisResult := None;
      toasts := [];
      invocations := [];
      previewReads := [];
      pauses := [];
    }

    /**
     * A change of the file input. The first chosen file becomes the selected
     * image and a read of its preview starts; choosing nothing changes nothing.
     * The preview itself arrives later, through PreviewLoaded.
     */
    method HandleImageChange(files: Option<seq<ImageFile>>)
      modifies this
      ensures files.Some? && |files.value| > 0 ==>
        && selectedImage == Some(files.value[0])
        && previewReads == old(previewReads) + [files.value[0]]
      ensures !(files.Some? && |files.value| > 0) ==>
        selectedImage == old(selectedImage) && previewReads == old(previewReads)
      ensures imagePreview == old(imagePreview) && manualIngredients == old(manualIngredients)
      ensures isAnalyzing == old(isAnalyzing) && analysisResult == old(analysisResult)
      ensures toasts == old(toasts) && invocations == old(invocations) && pauses == old(pauses)
    {
      if files.Some? && |files.value| > 0 {
        var file := files.value[0];
        selectedImage := Some(file);
        previewReads := previewReads + [file];
      }
    }

    /**
     * The preview read started by HandleImageChange finishing: its result,
     * null after a failed read, becomes the preview.
     */
    method PreviewLoaded(result: Option<string>)
      requires |previewReads| > 0
      modifies this`imagePreview
      ensures imagePreview == result
    {
      imagePreview := result;
    }

    /** Typing in the ingredient box: the text is kept verbatim. */
    method SetManualIngredients(text: string)
      modifies this`manualIngredients
      ensures manualIngredients == text
    {
      manualIngredients := text;
    }

    /**
     * One run of the analysis, with the outcomes of the image read and of the
     * remote call supplied by the caller. It marks the component busy and
     * drops the old result before its first suspension, sends at most one
     * request, ends with the result of RunAttempt and exactly one toast,
     * and is never busy afterwards. It does not itself check the button's
     * condition.
     */
    method AnalyzeFood(profile: UserProfile, encoding: EncodeOutcome, remote: RemoteOutcome)
      modifies this
      ensures var a := RunAttempt(old(selectedImage), old(manualIngredients), profile, encoding, remote);
        && analysisResult == (if a.outcome.Succeeded? then Some(a.outcome.result) else None)
        && toasts == old(toasts) + [ToastFor(a.outcome)]
        && invocations == old(invocations) + (if a.request.Some? then [Invocation(FUNCTION_NAME, a.request.value)] else [])
        && |pauses| == |old(pauses)| + PauseCount(old(selectedImage), a)
      ensures forall k :: |old(pauses)| <= k < |pauses| ==>
        pauses[k] == old(View()).(isAnalyzing := true, analysisResult := None)
      ensures forall k :: |old(pauses)| <= k < |pauses| ==> !AnalyzeEnabled(pauses[k])
      ensures !isAnalyzing
      ensures selectedImage == old(selectedImage) && manualIngredients == old(manualIngredients)
      ensures imagePreview == old(imagePreview) && previewReads == old(previewReads)
    {
      isAnalyzing := true;
      analysisResult := None;

      var thrown: Option<ErrorValue> := None;
      var imageData: Option<string> := None;
      if selectedImage.Some? {
        pauses := pauses + [View()];
        match encoding {
          case Encoded(dataUrl) => imageData := Some(dataUrl);
          case ReadFailed => thrown := Some(ErrorValue(None));
        }
      }

      if thrown.None? {
        var body := BuildRequest(imageData, manualIngredients, profile);
        invocations := invocations + [Invocation(FUNCTION_NAME, body)];
        pauses := pauses + [View()];
        match remote {
          case RemoteError(e) => thrown := Some(e);
          case Responded(analysis) =>
            if analysis.Some? {
              analysisResult := analysis;
              toasts := toasts + [Toast(SUCCESS_TITLE, SUCCESS_DESCRIPTION, false)];
            } else {
              thrown := Some(ErrorValue(Some(NO_DATA_MESSAGE)));
            }
        }
      }

      if thrown.Some? {
        toasts := toasts + [Toast(FAILURE_TITLE, FailureDescription(thrown.value), true)];
      }
      isAnalyzing := false;
    }

    /**
     * A click on the "Analyze Meal" button. A disabled button ignores the
     * click; an enabled one runs AnalyzeFood, whose request then always
     * carries a meal.
     */
    method PressAnalyze(profile: UserProfile, encoding: EncodeOutcome, remote: RemoteOutcome)
      modifies this
      ensures !AnalyzeEnabled(old(View())) ==>
        && View() == old(View())
        && toasts == old(toasts) && invocations == old(invocations)
        && pauses == old(pauses) && previewReads == old(previewReads)
      ensures AnalyzeEnabled(old(View())) ==>
        var a := RunAttempt(old(selectedImage), old(manualIngredients), profile, encoding, remote);
        && analysisResult == (if a.outcome.Succeeded? then Some(a.outcome.result) else None)
        && toasts == old(toasts) + [ToastFor(a.outcome)]
        && invocations == old(invocations) + (if a.request.Some? then [Invocation(FUNCTION_NAME, a.request.value)] else [])
        && |pauses| == |old(pauses)| + PauseCount(old(selectedImage), a)
      ensures AnalyzeEnabled(old(View())) ==>
        forall k :: |old(pauses)| <= k < |pauses| ==>
          pauses[k] == old(View()).(isAnalyzing := true, analysisResult := None)
      ensures forall k :: |old(pauses)| <= k < |pauses| ==> !AnalyzeEnabled(pauses[k])
      ensures forall k :: |old(invocations)| <= k < |invocations| ==> HasMealInput(invocations[k].body)
      ensures AnalyzeEnabled(old(View())) ==> !isAnalyzing
      ensures imagePreview == old(imagePreview) && previewReads == old(previewReads)
      ensures selectedImage == old(selectedImage) && manualIngredients == old(manualIngredients)
    {
      if AnalyzeEnabled(View()) {
        ghost var before := View();
        AnalyzeFood(profile, encoding, remote);
        EnabledAttemptCarriesMeal(before, profile, encoding, remote);
      }
    }
  }
}
