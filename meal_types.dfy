/**
 * The values the meal-analysis component works on: the caller's profile, the
 * selected image, the request sent to the `analyze-meal` remote function, the
 * analysis it returns, the outcomes of the two suspensions, and the toasts.
 */
module MealTypes {
  import opened Wrappers

  /** The profile passed in by the parent; read, never changed. */
  datatype UserProfile = UserProfile(medicalConditions: string, religion: string, workEnvironment: string)

  /** The file picked in the upload box, kept as raw bytes. */
  datatype ImageFile = ImageFile(name: string, mimeType: string, bytes: seq<bv8>)

  /** One dangerous combination. Text absent in the response renders as nothing; it is kept as "". */
  datatype Combination = Combination(foods: seq<string>, reason: string, severity: string)

  /** One medical concern, with the same convention for absent text. */
  datatype MedicalConcern = MedicalConcern(ingredient: string, concern: string, recommendation: string)

  /** The recommendations block; every field may be absent. */
  datatype Recommendations = Recommendations(
    overallSafety: Option<string>,
    itemsToRemove: Option<seq<string>>,
    itemsToAdd: Option<seq<string>>,
    notes: Option<string>)

  /** The `analysis` object of a successful response; every top-level field may be absent. */
  datatype AnalysisResult = AnalysisResult(
    detectedFoods: Option<seq<string>>,
    dangerousCombinations: Option<seq<Combination>>,
    medicalConcerns: Option<seq<MedicalConcern>>,
    religiousConcerns: Option<seq<string>>,
    recommendations: Option<Recommendations>)

  /** The body sent to the remote function; `None` stands for JSON `null`. */
  datatype AnalysisRequest = AnalysisRequest(
    imageData: Option<string>,
    ingredients: Option<string>,
    userProfile: UserProfile)

  /** One call of a named remote function with its body. */
  datatype Invocation = Invocation(functionName: string, body: AnalysisRequest)

  /** A thrown error as the catch block sees it: only its `message` property is read. */
  datatype ErrorValue = ErrorValue(message: Option<string>)

  /**
   * How reading the selected image as a data URL ends. A failed read rejects
   * with the reader's error event, which carries no `message`.
   */
  datatype EncodeOutcome = Encoded(dataUrl: string) | ReadFailed

  /**
   * What the remote call resolves to: an `error` object, or `data` whose
   * `analysis` field is present or not (a `null` data counts as absent).
   */
  datatype RemoteOutcome = RemoteError(error: ErrorValue) | Responded(analysis: Option<AnalysisResult>)

  /** A toast as shown to the user. */
  datatype Toast = Toast(title: string, description: string, destructive: bool)

  /** The component's whole state at one moment, as the render sees it. */
  datatype ViewState = ViewState(
    selectedImage: Option<ImageFile>,
    imagePreview: Option<string>,
    manualIngredients: string,
    isAnalyzing: bool,
    analysisResult: Option<AnalysisResult>)
}
