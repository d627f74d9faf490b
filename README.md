# Meal analysis: submission cycle and result display

This project models the meal-analysis component of the Food Harmony client
(`food_harmony_main/src/components/MealAnalysis.tsx`). A user picks a meal photo
or types ingredients, presses "Analyze Meal", and the component sends the meal
and the user's profile to the remote function `analyze-meal`. It then shows one
toast and, on success, a panel of detected foods, dangerous combinations,
medical and religious concerns, and recommendations.

The model has five modules:

- `Wrappers`: the `Option` datatype. It stands for every value the component
  may find `null` or `undefined`.
- `MealTypes`: the profile, the image file, the request body, the analysis
  result (every top-level field optional), and the outcomes of the two
  suspensions. It also holds the toast and a snapshot of the whole component
  state (`ViewState`).
- `Submission`: pure rules for submitting.
  - `AnalyzeEnabled` is when the button is enabled.
  - `BuildRequest` builds the request body.
  - `FailureDescription` picks the failure toast's text.
  - `RunAttempt` is a reference definition of one attempt's request and
    outcome, given the two suspension outcomes.
- `Display`: pure render rules. They say which sections show, with which
  contents and badge variants, and how the button and upload box look.
- `Component`: the class `MealAnalysis`. Its fields are the component's state
  hooks and its methods are the event handlers. `AnalyzeFood` changes the
  fields step by step and is proved against `RunAttempt`.

The two `await`s in `analyzeFood` are steps inside one method. The caller
supplies their outcomes: how the image read ends (`EncodeOutcome`) and what the
remote call returns (`RemoteOutcome`). Ghost fields record what would be
visible from outside:

- the toasts shown;
- the remote calls made;
- the preview reads started;
- the state at each suspension (`pauses`).

From these the proofs show three things. The component is busy and has no
result at every suspension. The button is disabled there, so only one analysis
is in flight at a time. The busy flag is cleared at the end.

Three behaviours of the code are worth stating:

- A failed image read rejects with the file reader's error event. That event
  has no `message`, so the toast always shows the fallback text
  "Failed to analyze meal. Please try again." It does not show a description
  of the read error (`EncodeOutcome.ReadFailed` carries no message).
- `analyzeFood` does not reject an empty meal. Started with no image and no
  text, it would send a request with both parts `null`. Only the disabled
  button stops this. `AnalyzeFood` has no such precondition, and
  `PressAnalyze` models the button's gate.
- The response is not validated against a schema. `data.analysis` is stored
  exactly as received.

## Model

| member | source | states |
|---|---|---|
| `Submission.AnalyzeEnabled` | food_harmony_main/src/components/MealAnalysis.tsx:191 | The button is enabled iff no analysis runs and an image is selected or the ingredient text is non-empty. |
| `Submission.BuildRequest` | food_harmony_main/src/components/MealAnalysis.tsx:72-77 | The body's `imageData` is the encoding result or null. Its `ingredients` is null iff the text is empty, else the text verbatim. The profile is passed unchanged. |
| `Submission.IngredientTextRoundTrip` | food_harmony_main/src/components/MealAnalysis.tsx:75 | Reading the body's ingredients back, with null as "", gives the typed text exactly. |
| `Submission.FailureDescription` | food_harmony_main/src/components/MealAnalysis.tsx:93-98 | The failure text is never empty. It is the error's message when that is present and non-empty, otherwise the fixed fallback. |
| `Submission.RunAttempt` | food_harmony_main/src/components/MealAnalysis.tsx:59-98 | A request is sent iff there is no image or its read succeeded. Success happens iff a request was sent and the response has `analysis`, and the result is that `analysis`. A failed read fails with no message. A remote error fails with that error. A missing `analysis` fails with "No analysis data received". |
| `Submission.ToastFor` | food_harmony_main/src/components/MealAnalysis.tsx:84-98 | The toast is destructive iff the attempt failed. Its title is "Analysis Complete" or "Analysis Failed". A failure's description is the mapped error text. |
| `Submission.AttemptToastText` | food_harmony_main/src/components/MealAnalysis.tsx:62-98 | Gives the exact toast for each path: fallback text for a failed read, the mapped message for a remote error, "No analysis data received" for a missing analysis, the success toast otherwise. |
| `Submission.EnabledAttemptCarriesMeal` | food_harmony_main/src/components/MealAnalysis.tsx:189-191 | A sent request carries an image or text iff the state had an image or non-empty text. So a request sent from an enabled button always carries a meal. |
| `Display.ButtonLabel` | food_harmony_main/src/components/MealAnalysis.tsx:195-202 | The button reads "Analyzing..." exactly while analyzing, otherwise "Analyze Meal". |
| `Display.Upload` | food_harmony_main/src/components/MealAnalysis.tsx:141-161 | The upload box shows the preview iff a non-empty preview URL is held, with that URL as source. Otherwise it shows the placeholder. |
| `Display.Visible` | food_harmony_main/src/components/MealAnalysis.tsx:210-231 | A list section is shown iff its field is present with length > 0, and then shows the received list unchanged, in order. |
| `Display.VisibleText` | food_harmony_main/src/components/MealAnalysis.tsx:383-389 | The notes block is shown iff the notes are present and non-empty, and then shows them unchanged. |
| `Display.SeverityBadge` | food_harmony_main/src/components/MealAnalysis.tsx:251-259 | A combination's badge is destructive iff severity is "high", otherwise secondary, never default. |
| `Display.Safety` | food_harmony_main/src/components/MealAnalysis.tsx:336-348 | The safety badge is shown iff the value is present and non-empty. It is default iff the value is "safe", else destructive, and reads "Overall Safety: " followed by the value. |
| `Display.CombinationTitle` | food_harmony_main/src/components/MealAnalysis.tsx:248 | The title joins the foods with " + ": empty for no foods, otherwise starting with the first food, which is followed by " + " when more foods come. |
| `Display.RenderCombination` | food_harmony_main/src/components/MealAnalysis.tsx:241-263 | A combination's title is its `CombinationTitle`. It shows its reason unchanged and the badge text "<severity> severity". Its badge is destructive iff severity is "high". |
| `Display.CombinationTitleRoundTrip` | food_harmony_main/src/components/MealAnalysis.tsx:248 | For a non-empty list of foods none of which contains '+', splitting the title at " + " gives back every food, in order. (An empty list gives the empty title, which splits to [""].) |
| `Display.SplitAfterFood` | food_harmony_main/src/components/MealAnalysis.tsx:248 | For a food without '+' followed by a text that is empty or does not start with '+', splitting keeps that food whole at the head of the first part. |
| `Display.RenderRecommendations` | food_harmony_main/src/components/MealAnalysis.tsx:329-391 | The safety badge follows `Safety`. Items to remove and items to add are each shown iff present and non-empty, in received order. Notes are shown iff non-empty. |
| `Display.RenderResult` | food_harmony_main/src/components/MealAnalysis.tsx:207-392 | Detected foods, combinations, medical concerns and religious concerns are each shown iff present and non-empty, items in received order, one rendered entry per combination. Recommendations are shown iff present. |
| `Display.ResultPanel` | food_harmony_main/src/components/MealAnalysis.tsx:207-208 | The result panel is rendered iff a result is held, and then renders that result. |
| `Display.AbsentListRendersAsEmpty` | food_harmony_main/src/components/MealAnalysis.tsx:210-381 | An absent list field and an empty one render the same panel, for each of the six list fields. |
| `Component.MealAnalysis.constructor` | food_harmony_main/src/components/MealAnalysis.tsx:36-40 | No image, no preview, empty text, not analyzing, no result, and nothing recorded yet. |
| `Component.MealAnalysis.HandleImageChange` | food_harmony_main/src/components/MealAnalysis.tsx:43-53 | Choosing a file selects the first file and starts its preview read. Choosing nothing changes nothing. No other field changes. |
| `Component.MealAnalysis.PreviewLoaded` | food_harmony_main/src/components/MealAnalysis.tsx:48-50 | Once a preview read has been started, its result (null after a failed read) becomes the preview when it finishes. |
| `Component.MealAnalysis.SetManualIngredients` | food_harmony_main/src/components/MealAnalysis.tsx:180 | The typed text is stored verbatim. |
| `Component.MealAnalysis.AnalyzeFood` | food_harmony_main/src/components/MealAnalysis.tsx:55-102 | The result becomes `RunAttempt`'s result, or none on failure. The call adds exactly one toast, given by `ToastFor`. It records at most one `analyze-meal` call, carrying `RunAttempt`'s request. At each suspension the component is busy with no result and the button is disabled. Afterwards it is not busy, and the image, text and preview are unchanged. |
| `Component.MealAnalysis.PressAnalyze` | food_harmony_main/src/components/MealAnalysis.tsx:189-191 | A click on a disabled button changes nothing. A click on an enabled button ends like `AnalyzeFood`: the result, the one toast, the at most one call and the number of suspensions follow `RunAttempt`, and the component is not busy afterwards. At each suspension the component is busy with no result and the button is disabled. Every request sent carries an image or ingredient text. The preview and the preview reads never change. |

## Left out

- Reading the image as a base64 data URL, for both the preview and the request, uses the browser's file reader. Its result is an input (`EncodeOutcome`, `PreviewLoaded`'s argument). The model does not show that the data URL starts with a `data:` scheme prefix.
- The `supabase.functions.invoke` network call is an input (`RemoteOutcome`), and a `null` `data` counts as a missing `analysis`. A falsy non-object `analysis` value is modelled as absent.
- React scheduling: each handler runs as one atomic step. Events that arrive while an analysis is suspended are not interleaved. The proved `pauses` states show that the button is disabled at those points. Edits to the text or image made meanwhile would not affect the attempt anyway, because the handler reads the values captured when it was created.
- `userProfile` and `userName` are parent props. The profile is a parameter of `AnalyzeFood`. `userName` is only the greeting text.
- `console.error`, the toast UI, icons, tabs, CSS classes and the JSX layout are presentation. A toast is recorded as its title, description and destructive flag.
- Entry text fields (`reason`, `severity`, `ingredient`, `concern`, `recommendation`) that are missing in the response render as nothing. They are modelled as the empty string. A combination without `foods` would make the render throw. That case is not modelled: `foods` is required.
- The fixed badge and alert variants of the layout are presentation and not part of `ResultView`: detected foods always render as secondary badges, and the combinations section is always a destructive alert.
- `PreviewLoaded` is tied to a started read only by its precondition; which of several started reads finishes last, and so which preview is shown, is not modelled.
- Hero.tsx and Header.tsx are static markup and a click callback, with no logic.
