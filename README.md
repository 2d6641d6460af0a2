# Waste classification verdict — Dafny model

This project models the decision core of the smart-waste backend's
`POST /api/classify/upload` route (`routes/classify.js`). The route takes an
uploaded image and forwards it to a Roboflow detection model. It then turns
the model's JSON reply into a single verdict: the raw label, a coarse waste
category, a confidence percentage, disposal tips and an impact note. The
model covers:

- the constant **segregation tips table** (`tips.dfy`, module `Tips`), a map
  from category key to display category, five tips and an impact sentence,
  and its lookup with the `trash` fallback;
- **`mapWasteType`** (`waste_type.dfy`, module `WasteType`), which
  lower-cases a label and applies ordered substring rules for plastic,
  paper, cardboard, metal, glass and food/organic, with trash as the
  default. The string helpers it needs are in `text.dfy`, module `Text`;
- the **top-prediction scan** (`top_prediction.dfy`, module
  `TopPrediction`). This is the `for…in` loop over the keyed `predictions`
  object. It keeps the key whose confidence is strictly greater than the
  running maximum, which starts at 0. It is modelled as a method with a
  loop (`SelectTop`) and proved against a specification function
  (`ScanPrefix`/`TopIndex`). That function is in turn characterised by an
  independent reference definition (`IsTop`): the first entry with the
  greatest confidence, provided that confidence is positive;
- the **handler's decision logic** (`classify.dfy`, module `Upload`). It
  checks in order: no file gives 400; a missing or empty model name,
  version or API key gives 500; with no keyed predictions, the first
  `predicted_classes` label is reported with confidence 90 or, failing
  that, the request gets 400; otherwise the scan runs and either gives 400
  or assembles the result with `confidence = Math.round(conf * 100)`;
- worked scenarios (`examples.dfy`, module `Scenarios`).

The detection service is not called in the model. Its reply is a parameter
of `Upload.Classify`. The entries of the `predictions` object are given as
a sequence in the order `for…in` visits them.

Behaviour that follows the code as written:

- There is no confidence threshold. A single detection at 0.3 is reported
  with confidence 30 (`Scenarios.LowConfidenceAccepted`).
- Only two reply shapes are read: the keyed `predictions` object and
  `predicted_classes`. There is no separate path for an array of
  `{class, confidence}` objects. If `predictions` is such an array,
  `for…in` visits its indices "0", "1", …, so the reported name is an index
  string. In the model that reply is the entry sequence with those keys.
- The fallback label gets the fixed confidence 90 (`Upload.FallbackConfidence`).
- The winner check is a truthiness test on the key. A winning key that is
  the empty string is rejected like no winner at all
  (`Scenarios.EmptyKeyRejected`).
- The two "no prediction" outcomes have different messages.
  "No object detected or low confidence." is for the fallback path and
  "Could not determine the top prediction." is for the scan.

## Model

| member | source | states |
|---|---|---|
| `Text.Lower` | routes/classify.js:23 | lower-casing leaves no upper-case ASCII letter and changes no other character |
| `Text.Contains` | routes/classify.js:24-29 | no contract of its own; `includes` as a search over every starting position, characterised by `Text.ContainsMeansOccurs` |
| `Text.ContainsMeansOccurs` | routes/classify.js:24-29 | the executable substring search is true exactly when the keyword occurs at some position of the label |
| `Tips.Lookup` | routes/classify.js:109 | used at line 74 for the fallback label as well; the lookup never fails: it yields an entry of the table, and that entry is complete (display category, five non-empty tips, impact) |
| `Tips.TableComplete` | routes/classify.js:11-19 | `trash` is a key of the table and every entry has a display category, five non-empty tips and an impact sentence |
| `WasteType.MapWasteType` | routes/classify.js:22-31 | no contract of its own; the if-chain over the lower-cased label, characterised by `WasteType.MapWasteTypeIsFirstRule` and `WasteType.FirstRuleUnique` |
| `WasteType.MapWasteTypeIsFirstRule` | routes/classify.js:22-31 | the category returned is the first rule (in source order) whose keyword occurs in the lower-cased label, and trash only when no rule fires |
| `WasteType.FirstRuleUnique` | routes/classify.js:22-31 | the ordered-rule semantics admits only one category, so it determines the mapper's result |
| `WasteType.CaseInsensitive` | routes/classify.js:23 | mapping a lower-cased label gives the same category as mapping the label itself |
| `WasteType.KeywordDecides` | routes/classify.js:24-29 | a keyword of a category in the lower-cased label decides the result when no earlier rule's keyword occurs |
| `WasteType.PlasticAnyCase` | routes/classify.js:24 | any label whose lower-case form contains "plastic" maps to plastic |
| `WasteType.PlasticBeatsPaper` | routes/classify.js:24-25 | a label containing both "plastic" and "paper" maps to plastic |
| `WasteType.PaperBeatsCardboard` | routes/classify.js:25-26 | a label containing "paper" and "cardboard" but not "plastic" maps to paper |
| `WasteType.FoodIsOrganic` | routes/classify.js:29 | "food" selects organic when no earlier keyword occurs |
| `WasteType.NoKeywordIsTrash` | routes/classify.js:30 | a label containing none of the keywords maps to trash |
| `WasteType.DecidedBy` | routes/classify.js:22-31 | a lower-case label on which a category's rule fires and every earlier rule stays silent maps to that category |
| `WasteType.KeysAreCategories` | routes/classify.js:11-19 | every category the mapper returns is a key of the tips table, so the trash fallback is never taken, and every key of the table is some category |
| `WasteType.KeyInjective` | routes/classify.js:11-19 | distinct categories have distinct table keys |
| `TopPrediction.ScanPrefix` | routes/classify.js:88-96 | the loop's variables after the first n entries; the held winner is always one of those n entries (its full meaning is `TopPrediction.ScanPrefixMeaning`) |
| `TopPrediction.ScanPrefixMeaning` | routes/classify.js:88-96 | after each prefix, either no key is held and the maximum is still 0 with no positive confidence seen, or the held key has the positive maximum, no entry so far exceeds it and every earlier entry is strictly below it |
| `TopPrediction.IsTopUnique` | routes/classify.js:88-96 | at most one entry is the first entry with the greatest positive confidence |
| `TopPrediction.TopIndexIsTop` | routes/classify.js:88-96 | the scan selects exactly the reference top entry, selects nothing exactly when no confidence exceeds 0, and ends with the selected entry's confidence as its maximum |
| `TopPrediction.TieKeepsFirst` | routes/classify.js:92 | an entry whose confidence equals an earlier entry's is never selected |
| `TopPrediction.SelectTop` | routes/classify.js:88-96 | the loop's final class and maximum equal the specification's; the class is null exactly when no confidence exceeds 0, and is otherwise the top entry's key with its confidence |
| `Upload.Status` | routes/classify.js:35-120 | 200 exactly for a classification, 500 exactly for the configuration error, 400 otherwise |
| `Upload.RoundHalfUp` | routes/classify.js:114 | `Math.round` gives the integer nearest to its argument, with halves rounded up |
| `Upload.Percent` | routes/classify.js:114 | `Math.round(confidence * 100)` maps a fraction in [0, 1] to a percentage in 0..100 |
| `Upload.FallbackClass` | routes/classify.js:71 | no contract of its own; `predicted_classes?.[0]`, absent when the list is absent or empty, characterised by `Upload.FallbackPath` |
| `Upload.Assemble` | routes/classify.js:108-118 | the result's category, tips and impact are the table entry of the category the name maps to, so the lookup's `trash` fallback is never taken |
| `Upload.Decide` | routes/classify.js:67-120 | after the outbound call the outcome is either a 400 "no prediction" or a classification, never a guard outcome, and a classification always carries a non-empty name |
| `Upload.BodyKey` | routes/classify.js:50 | with lines 37, 84 and 99: a rejection's text is sent under `error` exactly for the configuration error, and under `msg` exactly for the other rejections (no file, no detection, no top prediction) |
| `Upload.Message` | routes/classify.js:37 | with lines 50, 84 and 99: each guard has its own non-empty text, different from every other rejection text; a no-prediction outcome sends the text it carries |
| `Upload.Info` | routes/classify.js:115 | as at line 79: the sentence is the fixed prefix, the label, and a full stop, so the label can be read back from it |
| `Upload.Classify` | routes/classify.js:36-51 | the no-file outcome happens exactly without a file; the configuration error happens exactly with a file and a missing or empty credential |
| `Upload.GuardsPrecedeRequest` | routes/classify.js:36-51 | with no file or a missing credential the outcome does not depend on the service's reply, and is 400 or 500 respectively |
| `Upload.FallbackPath` | routes/classify.js:69-85 | without keyed predictions, a truthy first `predicted_classes` label is reported as that name with confidence 90, and otherwise the outcome is 400 "No object detected or low confidence." |
| `Upload.ScoredPath` | routes/classify.js:87-118 | with keyed predictions, a result exists exactly when the reference top entry exists with a non-empty key; it then carries that key and the rounded percentage of its confidence; otherwise the outcome is 400 "Could not determine the top prediction." |
| `Upload.NonPositiveScoresRejected` | routes/classify.js:88-100 | a non-empty map whose confidences are all at most 0 or missing gives 400 "Could not determine the top prediction." |
| `Upload.ResultMatchesProfile` | routes/classify.js:108-118 | a result's category, tips and impact are the table entry of its mapped category, that entry is complete, `info` names the same label, and the name is non-empty |
| `Upload.ConfidenceIsPercentage` | routes/classify.js:78-114 | when the service's confidences are at most 1, every reported confidence lies in 0..100 |
| `Scenarios.RoundingExamples` | routes/classify.js:114 | 0.005 reports 1, 0.004 reports 0, 0.92 reports 92 and 1 reports 100 |
| `Scenarios.NoFileScenario` | routes/classify.js:36-38 | no file gives 400 with `{ msg: "No file uploaded." }` |
| `Scenarios.MissingModelScenario` | routes/classify.js:44-51 | an unset model name gives 500 with `{ error: "Server configuration error" }` |
| `Scenarios.PlasticBottleIsPlastic` | routes/classify.js:24 | "plastic_bottle" maps to plastic |
| `Scenarios.StrictMaximumScenario` | routes/classify.js:88-118 | of "plastic_bottle" at 0.92 and "paper_scrap" at 0.40 the first is reported, with 92 and the plastic entry's category and impact |
| `Scenarios.MetalCanIsMetal` | routes/classify.js:27 | "metal_can" maps to metal |
| `Scenarios.FallbackLabelScenario` | routes/classify.js:69-82 | `predicted_classes: ["metal_can"]` without predictions gives "metal_can", 90 and the metal tips |
| `Scenarios.EmptyFallbackScenario` | routes/classify.js:69-84 | an empty map with an empty first fallback label gives 400 "No object detected or low confidence." |
| `Scenarios.LowConfidenceAccepted` | routes/classify.js:88-118 | a single detection at 0.3 is reported with confidence 30, as there is no threshold |
| `Scenarios.TieScenario` | routes/classify.js:91-96 | of two keys at 0.5 the first is reported |
| `Scenarios.EmptyKeyRejected` | routes/classify.js:98-100 | a winning key that is the empty string gives 400 "Could not determine the top prediction." |
| `Scenarios.ZeroScoresRejected` | routes/classify.js:88-100 | a map whose confidences are 0 or missing gives 400 even when a fallback label is present |

## Left out

- The outbound POST to the detection service, the base64 encoding of the image and the multer upload handling (routes/classify.js:3-8, 42, 53-62). These are network and library plumbing. The service's reply is an input of `Upload.Classify`.
- The `catch` path that answers 500 "An error occurred while classifying the image." (routes/classify.js:122-132). It is taken when the outbound call fails or a property access throws, for example a `predictions` entry that is `null`. Neither of those is modelled.
- Console logging. It has no effect on the response.
- Tips.Lookup: models `segregationTips[key] || segregationTips['trash']` only for the table's own keys and for names that are no property of the object. JavaScript would return an inherited `Object.prototype` member for names such as "constructor", "toString" or "__proto__". That case cannot arise, because `mapWasteType` only returns the seven table keys (`WasteType.KeysAreCategories`).
- Floating point: confidences are `real`, and `Math.round(c * 100)` is exact rounding of the real product. IEEE-754 artefacts are not reproduced.
- Text.Lower: only the ASCII letters A-Z are lower-cased. JavaScript's `toLowerCase` also maps non-ASCII letters. Every keyword is ASCII, so this matters only for the few non-ASCII characters whose lower-case form is an ASCII letter.
- JavaScript coercion in `confidence > maxConfidence`: a confidence that is a numeric string would be coerced by JavaScript. The model treats every non-number confidence as absent (`None`), which never wins the comparison.
- The property order of `for…in` (integer-like keys first, then insertion order): the model takes the entries in the order the loop visits them and does not derive that order from the JSON text.
- Non-string elements of `predicted_classes` are not modelled. Labels are strings.
- index.js (application setup, database connection, error dispatch), routes/auth.js (registration, login, profile) and models/User.js (schema declaration) are not part of this model. They are framework glue and calls into external libraries and the database.
