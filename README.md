# Solace: a verified model of the planner's deterministic core

Solace is a Streamlit prototype that plans NYC public-school construction.
It has four pieces: a chat that collects project facts, a language model
that drafts a phased plan, trained regressors that predict the cost and
duration of each phase, and a reconciliation that keeps the materials
budget within a share of the predicted total. This project models in Dafny
the sequential logic inside those page scripts and proves what it
guarantees. The language model's replies, `json.loads` and the trained
artifacts are left abstract. A reply is an arbitrary string. The JSON
parser is a function parameter returning an `Option`. The sentence
embedder, encoders, scaler and regressors are function-typed fields of an
`Artifacts` value, and nothing is assumed about them.

Modules, one per file:

- `Wrappers`: `Option` and `Result`.
- `Text`: the Python string built-ins the program uses. These are `strip`,
  `split` on one character, `find`/`rfind`, `removeprefix`/`removesuffix`
  and slice-bound normalisation, each with its characterising lemmas.
- `Chat`: chat messages and their roles.
- `Questionnaire`: the guided questionnaire of the main page (`app.py`). It
  is a class whose answers are a `seq<Option<string>>` indexed by question
  position, plus the key asked last.
- `Chatbot`: the simple chatbot page (`pages/5_ai_chatbot.py`), where each
  message fills the first absent answer.
- `FollowUp`: the four-stage follow-up assistant (`pages/4_ai_assistant.py`).
  It is a class whose stage only moves forward. It splits the questions
  into lines and builds `combined_info` with a `+=` loop.
- `Scrub`: scrubbing of the model's replies. This covers fence stripping,
  the greedy `{…}` span, the duration digit filter with its zero fallback,
  and the `[…]` span built from `find`/`rfind`.
- `Predict`: the feature vectors, the per-phase prediction loops of both
  pages, the totals and `format_duration`.
- `Summary`: the predictions page's summary table. For each phase it has a
  total row, then one row per subphase.
- `Reconcile`: collection of the materials rows, and the in-place
  proportional cut of their costs to 60% of the predicted total, with a
  floor of 1.

Python `float` is modelled by exact `real`, and Python `int` by unbounded
`int`. Python's `round` to an integer is written out as round-half-to-even,
and `int()` of a float is written out as truncation toward zero.

In these places the model follows the code as written:

- The guided flow skips only an empty message. A message made only of
  whitespace is stored as an answer (`app.py:275`).
- Reconciliation floors every cost at 1 even when the original total is not
  positive. In that case the adjustment is 0, but `max(1, cost)` still
  applies (`app.py:689-693`).
- The summary table reads a subphase's name, duration and cost with `[]`.
  A missing field raises `KeyError` and stops the run (`Summary.SubRow`).
  The phase totals read them with `.get(…, 0)`.

## Model

| member | source | states |
|---|---|---|
| Text.Strip | app.py:470 | `str.strip()`: the result is no longer than the input |
| Text.StripShape | app.py:470 | what `strip` keeps is the contiguous middle of the text, between a whitespace-only prefix and a whitespace-only suffix, and it has no whitespace at either end |
| Text.StripKeepsOut | app.py:470 | a character absent from the text is absent after stripping |
| Text.StripTrimmed | app.py:470 | stripping text without whitespace at its ends changes nothing |
| Text.StripIdempotent | app.py:470 | stripping twice is stripping once |
| Text.LStrip | app.py:470 | `lstrip` never lengthens its input |
| Text.LStripShape | app.py:470 | `lstrip` keeps a suffix that does not start with whitespace and drops only whitespace |
| Text.RStrip | app.py:470 | `rstrip` never lengthens its input |
| Text.RStripShape | app.py:470 | `rstrip` keeps a prefix that does not end with whitespace and drops only whitespace |
| Text.RemovePrefix | app.py:470 | `removeprefix`: with the prefix present, prefix + result is the input; otherwise the input is unchanged |
| Text.RemoveSuffix | app.py:470 | `removesuffix`: with the suffix present, result + suffix is the input; otherwise the input is unchanged |
| Text.Split | pages/4_ai_assistant.py:55 | `split("\n")` gives at least one piece, and no piece contains the separator |
| Text.SplitCount | pages/4_ai_assistant.py:55 | `split` yields one piece more than there are separators (one question per line) |
| Text.JoinSplit | pages/4_ai_assistant.py:55 | joining the pieces back with the separator restores the text |
| Text.SplitJoin | pages/4_ai_assistant.py:55 | pieces free of the separator survive a join followed by a split |
| Text.SplitConcat | pages/4_ai_assistant.py:55 | splitting around one separator splits each side independently |
| Text.SplitNoSep | pages/4_ai_assistant.py:55 | a text without the separator is a single piece |
| Text.Find | pages/1_Model_Predictions.py:244 | `find`: -1 exactly when the character is absent; otherwise the index of its first occurrence |
| Text.RFind | pages/1_Model_Predictions.py:245 | `rfind`: -1 exactly when the character is absent; otherwise the index of its last occurrence |
| Text.PySlice | pages/1_Model_Predictions.py:244-246 | `s[start:end]` never fails and is never longer than `s`. With in-range bounds it is the ordinary slice, and it is empty when the end does not come after the start. A non-empty result is the text between the normalised bounds |
| Text.SliceBound | pages/1_Model_Predictions.py:246 | Python's slice-bound normalisation: in range it is the bound itself, a negative bound counts from the end, and the result lies within the text |
| Questionnaire.FirstUnanswered | app.py:264-268 | the first question, in declaration order, whose answer is `None` or `""`; it is `None` exactly when every answer is non-empty |
| Questionnaire.Commit | app.py:277-278 | the input is written under the pending key, only when one is pending, and every other answer is unchanged |
| Questionnaire.CommitAdvances | app.py:275-285 | storing a non-empty answer under the first missing key keeps answers filled front to back, moves the first missing key one step on, and keeps every given answer |
| Questionnaire.GuidedSession.constructor | app.py:248-260 | a session started on this page has no answers, no pending key and an empty transcript |
| Questionnaire.GuidedSession.NextQuestion | app.py:264-268 | the declaration-order scan returns `FirstUnanswered` of the current answers |
| Questionnaire.GuidedSession.Submit | app.py:275-322 | empty input changes nothing. Otherwise the answer goes under the key asked last, and none is stored on the first message. The user message and the stripped reply are appended, and the pending key becomes the first missing one after the write |
| Questionnaire.GuidedSession.PlanOffered | app.py:331-333 | the plan button is offered exactly when no answer is missing |
| Questionnaire.GuidedSession.GeneratePlan | app.py:330-404 | pressing the offered button stores the stripped reply as the final plan; when the button is not offered or not pressed nothing changes; answers, pending key and transcript are untouched |
| Chatbot.FirstNone | pages/5_ai_chatbot.py:37-41 | the first question whose answer is `None` (`""` counts as given); it is `None` exactly when all are given |
| Chatbot.Assign | pages/5_ai_chatbot.py:51-53 | a message fills the first absent answer, if any; answers already given are never overwritten, and nothing else changes |
| Chatbot.AssignAllFills | pages/5_ai_chatbot.py:46-53 | from answers filled up to position m, further messages fill the following positions in order, one message each |
| Chatbot.AssignAll | pages/5_ai_chatbot.py:46-53 | over any number of messages the answers keep their length and an answer once given is never overwritten |
| Chatbot.FilledAfterMessages | pages/5_ai_chatbot.py:13-53 | after n non-empty messages in a session started on this page exactly the first min(n, 10) questions are answered, the i-th by the i-th message |
| Chatbot.ChatbotSession.constructor | pages/5_ai_chatbot.py:27-31 | every answer starts absent and the transcript empty |
| Chatbot.ChatbotSession.NextQuestion | pages/5_ai_chatbot.py:37-41 | the scan returns `FirstNone` of the current answers |
| Chatbot.ChatbotSession.Submit | pages/5_ai_chatbot.py:46-85 | empty input changes nothing; otherwise the answers are `Assign` of the old answers and exactly two entries are appended, the user message and then the stripped reply |
| Chatbot.ChatbotSession.PlanButtonShown | pages/5_ai_chatbot.py:94-101 | the generate button is shown exactly when every answer is given |
| Chatbot.ChatbotSession.GeneratePlan | pages/5_ai_chatbot.py:99-124 | pressing the shown button stores the stripped reply as the final plan; otherwise nothing changes; answers and transcript are untouched |
| FollowUp.UserContents | pages/4_ai_assistant.py:77 | the user messages' contents; when the transcript opens with a user message, the first content is that message |
| FollowUp.Lines | pages/4_ai_assistant.py:79-80 | one line per zipped pair, the i-th being "- q: a" for the i-th question and answer |
| FollowUp.CombinedInfo | pages/4_ai_assistant.py:77-80 | `combined_info` always opens with the header carrying the user's description |
| FollowUp.TerminatedSplit | pages/4_ai_assistant.py:79-80 | newline-terminated lines split on "\n" give back the lines |
| FollowUp.CombinedInfoLines | pages/4_ai_assistant.py:77-80 | `combined_info` starts with "User description: " and the description. After the header, split on "\n", it is one "- q: a" line per zipped pair in question order, then the empty piece after the last newline |
| FollowUp.BuildCombinedInfo | pages/4_ai_assistant.py:78-80 | the `+=` loop over the zipped pairs builds exactly `CombinedInfo` |
| FollowUp.ReadForm | pages/4_ai_assistant.py:62-65 | the form yields one input per question, the i-th from the i-th field |
| FollowUp.PlannerSession.constructor | pages/4_ai_assistant.py:14-21 | the stage starts at `initial_input` with empty transcript, questions and answers |
| FollowUp.PlannerSession.Describe | pages/4_ai_assistant.py:24-56 | a non-empty description at stage 1 is appended as a user message, the questions become the stripped reply split on "\n", and the stage moves to collecting answers; otherwise nothing changes; the stage never moves back |
| FollowUp.PlannerSession.Collect | pages/4_ai_assistant.py:59-70 | on submit at stage 2 the answers are the form's fields, one per question, and the stage moves to generating; otherwise nothing changes |
| FollowUp.PlannerSession.Generate | pages/4_ai_assistant.py:73-121 | at stage 3 the combined text is `CombinedInfo` of the first user message and the pairs, the plan is appended as an assistant message, and the stage moves to display |
| FollowUp.PlannerSession.Displayed | pages/4_ai_assistant.py:123-126 | at the display stage, the text shown is the content of the last transcript entry, and that entry is an assistant message |
| FollowUp.PlannerSession.Continue | pages/4_ai_assistant.py:59-121 | the form block then the generation block. A submitted form or a run at generating ends at display with the plan appended and shown; the answers are the form's fields when the form was submitted and are kept otherwise. In every other case nothing changes |
| FollowUp.PlannerSession.Rerun | pages/4_ai_assistant.py:24-126 | one run of the four stage blocks in order never moves the stage back, and the whole new state is given for every starting stage. An empty description changes nothing. A description appends the user message, stores the stripped reply split into lines as the questions, and waits at the form. A submitted form ends at display with the plan appended and shown, and the answers are the form's fields. A run at generating ends at display with the plan appended. A run at the form without a submit, or at display, changes nothing |
| Scrub.CleanJsonTrimmed | app.py:469-470 | the cleaned text never has whitespace at either end |
| Scrub.CleanJsonString | app.py:469-470 | cleaning never lengthens the reply |
| Scrub.CleanUnfenced | app.py:469-470 | on a reply without fences, cleaning is plain stripping |
| Scrub.CleanFenced | app.py:469-470 | a body wrapped in a "```json" fence comes back as the stripped body |
| Scrub.JsonSpan | app.py:434-436 | a match opens with `{` and closes with `}` |
| Scrub.JsonSpanIsSearch | app.py:434-436 | the span is found exactly when some `{…}` match exists, and it is then the match the greedy search returns: the leftmost one, and the longest among those |
| Scrub.ReadDurations | app.py:433-440 | with no match the durations are the empty map; an error arises exactly when a match exists and the JSON parser rejects it; otherwise the durations are what the parser returns for the matched span |
| Scrub.KeepNumeric | app.py:449 | the filter keeps only digits and dots and never lengthens the text |
| Scrub.KeepNumericConcat | app.py:449 | the filter works character by character and distributes over concatenation |
| Scrub.KeepNumericKeeps | app.py:449 | text made only of digits and dots passes unchanged |
| Scrub.KeepNumericDrops | app.py:449 | text without digits and dots filters to nothing |
| Scrub.FloatValue | app.py:451 | the value `float()` gives to accepted digits and dots is never negative |
| Scrub.ParseFloat | app.py:451 | `float()` succeeds exactly on the accepted syntax, with a non-negative value |
| Scrub.ParseFloatAccepts | app.py:451 | `float()` accepts a string of digits and dots exactly when it is not empty, not ".", and has at most one dot |
| Scrub.ParseWeeks | app.py:447-453 | the weeks read for a phase are never negative |
| Scrub.DurationOf | app.py:447 | `.get(code, "0")`: the reply's value for the phase code when present, the text "0" otherwise |
| Scrub.MissingPhaseIsZero | app.py:447 | a phase missing from the reply counts as zero weeks |
| Scrub.SeveralDotsIsZero | app.py:451-453 | a malformed number such as "1.2.3" falls back to zero |
| Scrub.ParseWeeksShowNat | app.py:447-453 | a whole number of weeks followed by text such as " weeks" reads as that number |
| Scrub.RangeRunsTogether | app.py:449-451 | a range such as "3-4 weeks" is read as the two digit runs written together (34) |
| Scrub.DigitsWeeks | app.py:449-451 | text whose filter leaves a non-empty run of digits reads as the value of those digits |
| Scrub.BracketSpanFound | pages/1_Model_Predictions.py:244-246 | when the first `[` comes no later than the last `]`, the slice runs from the one through the other inclusive |
| Scrub.BracketSpanMissing | pages/1_Model_Predictions.py:244-246 | with no `]` the slice is empty; with no `[` it is at most one character |
| Scrub.BracketSpan | pages/1_Model_Predictions.py:244-246 | the slice never exceeds the reply, and a non-empty slice always ends with `]` |
| Summary.ParsePlan | pages/1_Model_Predictions.py:243-251 | parsing succeeds exactly when the JSON parser accepts the bracketed span, and then yields what the parser returns for it; a failure carries the raw reply that is shown |
| Summary.BracketSpanAt | pages/1_Model_Predictions.py:244-246 | the span runs from the first `[` through the last `]` |
| Summary.ParsePlanSeesArray | pages/1_Model_Predictions.py:244-246 | whatever text surrounds the array, the span is the array itself, if no `[` comes before it and no `]` after it |
| Summary.SubRow | pages/1_Model_Predictions.py:394-399 | a subphase row exists exactly when the name, duration and cost are all present, and it is never classified as a phase row |
| Summary.TotalRow | pages/1_Model_Predictions.py:380-390 | the total row is labelled with the phase name, and is styled as a phase row exactly when that name does not start with the subphase marker. Its duration and cost are the sums over the phase's subphases, with a missing field counting as 0 |
| Summary.IsPhaseRow | pages/1_Model_Predictions.py:406-410 | a row is styled as a phase row exactly when its caption does not begin with the subphase marker "   ↳", so no subphase label is ever a phase row |
| Summary.SumsNonNegative | pages/1_Model_Predictions.py:381-382 | when no subphase has a negative duration or cost, the phase totals are non-negative, with missing fields counting as 0 |
| Summary.SubRows | pages/1_Model_Predictions.py:394-399 | on success there is one row per subphase |
| Summary.PhaseRows | pages/1_Model_Predictions.py:379-399 | on success a phase yields one total row plus one row per subphase |
| Summary.Table | pages/1_Model_Predictions.py:378-399 | on success the table has one row per phase plus one per subphase |
| Summary.BuildSummary | pages/1_Model_Predictions.py:378-399 | the nested append loops build exactly `Table`, or stop at the first missing field |
| Summary.TableKeepsFailure | pages/1_Model_Predictions.py:379-399 | a missing field in an earlier phase is the failure of the whole table |
| Summary.TableStopsAt | pages/1_Model_Predictions.py:394-399 | the first subphase with a missing field decides the failure |
| Summary.SubRowsKeepFailure | pages/1_Model_Predictions.py:394-399 | a missing field in an earlier subphase is the failure of the phase |
| Summary.SubRowsShape | pages/1_Model_Predictions.py:394-399 | the subphase rows fail exactly when some subphase misses a field; otherwise row m carries subphase m's label, duration and cost |
| Summary.TotalsAddUp | pages/1_Model_Predictions.py:380-399 | with every field present, a phase's total duration and cost are the sums of its subphase rows |
| Summary.CountPhaseRowsConcat | pages/1_Model_Predictions.py:407 | phase rows are counted additively over concatenated tables |
| Summary.TableRows | pages/1_Model_Predictions.py:379-407 | the table has one row per phase plus one per subphase, and, when no phase name starts with the marker, exactly one phase row per phase |
| Summary.NoPhaseRows | pages/1_Model_Predictions.py:407 | rows none of which is a phase row count for nothing |
| Predict.CostFeaturesLayout | pages/1_Model_Predictions.py:210-221 | the cost features are the embedding, then the categorical block, then the numeric block built from weeks × 7, each in its own place, with length the sum of the three |
| Predict.DurationFeaturesLayout | pages/1_Model_Predictions.py:198-207 | the duration features are the embedding followed by the categorical block, with no numeric part, and open with the same embedding as the cost features |
| Predict.CostFeatures | pages/1_Model_Predictions.py:210-221 | the cost features are as long as the embedding, the categorical block and the numeric block together |
| Predict.DurationFeatures | pages/1_Model_Predictions.py:198-207 | the duration features are as long as the embedding and the categorical block together |
| Predict.Floor0 | app.py:463 | `max(cost, 0)`: the cost itself when it is non-negative, and 0 when it is negative |
| Predict.AppRow | app.py:444-464 | a guided-flow row carries the phase's display name, the weeks parsed from the reply's entry for the phase code (never negative), and the cost model's output on those weeks, floored at 0 |
| Predict.PredictCostDuration | app.py:441-467 | exactly one row per phase-mapping entry, in mapping order, each computed from that entry |
| Predict.PageRow | pages/1_Model_Predictions.py:259-267 | a page row carries the display name, the duration model's weeks (not floored), and the cost model's output on those weeks, floored at 0 |
| Predict.PredictPhases | pages/1_Model_Predictions.py:258-267 | exactly one row per phase-mapping entry (8), in mapping order, each computed from that entry |
| Predict.TotalCostBounds | pages/1_Model_Predictions.py:271 | rows with non-negative costs add up to a non-negative total that no row exceeds |
| Predict.TotalCost | pages/1_Model_Predictions.py:271 | the summed cost column is non-negative when every cost is |
| Predict.TotalWeeks | pages/1_Model_Predictions.py:272 | the summed duration column is non-negative when every duration is |
| Predict.AppTotalsNonNegative | app.py:524-525 | the guided flow's total cost and total duration are never negative |
| Predict.Trunc | pages/1_Model_Predictions.py:287 | `int()` of a float truncates toward zero |
| Predict.FormatDuration | pages/1_Model_Predictions.py:286-289 | the days lie within half a day of the fraction of a week left after the whole weeks, and within -7..7. For a non-negative duration the weeks are its whole part and the days are non-negative. For a negative one both parts are at most 0 |
| Predict.RoundHalfEven | pages/1_Model_Predictions.py:288 | `round()` gives the nearest integer, with ties going to the even one |
| Predict.FormatDurationNonNegative | pages/1_Model_Predictions.py:286-289 | for a non-negative duration the weeks are its whole part, and the days lie in 0..7 within half a day of the fraction of a week |
| Predict.FormatDurationNegative | pages/1_Model_Predictions.py:286-289 | a negative duration keeps its sign in both weeks and days |
| Predict.SevenDaysNotCarried | pages/1_Model_Predictions.py:286-289 | seven days occur and are not carried into the weeks: n + 0.95 weeks shows as n weeks 7 days |
| Reconcile.CategoryRows | app.py:669-677 | one row per item of a category, in order, with "" / "N/A" / 0 for missing fields |
| Reconcile.ItemRow | app.py:670-677 | a row keeps the category and the item's fields, with "" for a missing name, "N/A" for a missing quantity and 0 for a missing cost |
| Reconcile.AllRows | app.py:668-677 | there is exactly one row per item over all categories |
| Reconcile.AppendCategory | app.py:669-677 | the inner loop appends exactly the category's rows, and every raw cost matches the cost of its row |
| Reconcile.CollectMaterials | app.py:664-677 | the nested loop gathers all rows, categories in order and items in order, with the raw costs equal to the row costs |
| Reconcile.SumCostsAtLeastCount | app.py:679-693 | when every cost is at least $1, which the adjustment enforces, the total is at least the number of material rows |
| Reconcile.Adjusted | app.py:688-693 | an adjusted cost is never below 1 |
| Reconcile.MapCostsAt | app.py:687-694 | row k of the mapped rows is row k with only its cost replaced |
| Reconcile.AdjustAllAt | app.py:687-694 | row k after adjustment is row k with its cost adjusted and every other field kept |
| Reconcile.ReconcileCosts | app.py:684-694 | the in-place loop over the rows leaves exactly `Reconciled` of the old rows |
| Reconcile.Materials | app.py:662-694 | gathering and then reconciling gives `Reconciled` of all rows against the predicted total |
| Reconcile.Reconciled | app.py:679-694 | reconciliation keeps the number of rows |
| Reconcile.UnchangedWithinThreshold | app.py:679-684 | when the materials cost at most 60% of the predicted total, every cost is left as it was |
| Reconcile.ReconcileKeepsRows | app.py:684-694 | row count, order and every non-cost field are kept; above the threshold every cost is at least 1 |
| Reconcile.ScaleAllSum | app.py:690 | scaling every cost by f scales the sum by f |
| Reconcile.AdjustedVsScaled | app.py:689-693 | cutting a cost by its share of the excess is never below scaling it to the threshold, and equals it when that is at least 1 |
| Reconcile.MapCostsScales | app.py:687-694 | a cut that scales every cost that clears the floor is scaling the whole list |
| Reconcile.MapCostsAbove | app.py:687-694 | a cut never below f times the cost gives a sum at least f times the original |
| Reconcile.AdjustAllScales | app.py:684-694 | with no row hitting the floor, adjusting is scaling by threshold / total |
| Reconcile.AdjustAllAboveScale | app.py:684-694 | with the floor, the adjusted costs add up to at least threshold / total times the original sum |
| Reconcile.ScaledSumIs | app.py:680-690 | the costs scaled by threshold / total add up to the threshold |
| Reconcile.ProportionalWithoutFloor | app.py:684-694 | over the threshold with no row hitting the floor, every cost is scaled by the same factor, threshold / total |
| Reconcile.ExactWithoutFloor | app.py:679-694 | over the threshold with no row hitting the floor, the reconciled costs add up to exactly 60% of the predicted total |
| Reconcile.AtLeastThreshold | app.py:679-694 | over the threshold with a positive total, the reconciled costs add up to at least 60% of the predicted total (the floor can only raise it) |
| Reconcile.ExampleReconciliation | app.py:679-694 | costs of 100, 200 and 700 against a predicted 1000 become 60, 120 and 420 |

## Left out

- The language-model calls and prompt wording. Replies are arbitrary strings passed in as parameters.
- `json.loads` is not modelled as a JSON grammar. It is a parameter that returns `None` on failure. The parsed plan is given directly as Dafny values (`PlanPhase`, `Category`, `MaterialItem`).
- The sentence embedder, encoders, scaler and regressors, and their loading from disk. They are uninterpreted functions in `Predict.Artifacts`.
- Floating-point behaviour. Costs and durations are exact reals, so `round(x, 2)` on the reported values and the currency and duration string formatting are not modelled. This includes the main page's `int((w % 1) * 7)` display, the summary's `format_duration` at pages/1_Model_Predictions.py:371-375 and `safe_format_cost`.
- Streamlit rendering, chat bubbles, charts, the Lottie download and the welcome animation. These are UI and I/O.
- The Excel export (pages/1_Model_Predictions.py:421-456). Its row formatting uses the same phase-row test as the on-screen styling, and `Summary.IsPhaseRow` is that one test.
- utils.py, pages/2_User.py, pages/1_Estimator.py and pages/3_About.py are not part of this model. They hold file, mail and CSV I/O and static text.
- The commented-out upgrade and repair flows of app.py, which are dead code.
- Cost-bucket lookup. The main page reads a session key that is never set, so the bucket is taken as a plain input.
- Scrub.ParseWeeks: `str.isdigit()` is modelled for ASCII digits only. Other Unicode digits would pass the Python filter.
- Scrub.ParseWeeks: JSON lists and objects as duration values are not modelled. Any non-string value (`NonText`) reads as 0, which matches the caught `TypeError` for numbers, null and booleans. In the source, a list of strings or an object is iterated, and its strings or keys are filtered like the characters of a string. A list holding a number raises `AttributeError` at `c.isdigit()` (app.py:449). The handler at app.py:452 does not catch it, so it reaches app.py:535-536 and the whole prediction fails.
- Scrub.ReadDurations: a JSON error after a match is returned as a `Failure`. The halting of the Streamlit run it causes is not modelled.
- Summary.ParsePlan: the error display and `st.stop()` are not modelled beyond the `Failure` that carries the raw reply.
- Scrub.BracketSpanFound: it states the slice bounds and end characters. That no `[` precedes the span and no `]` follows it is left to the contracts of `Text.Find` and `Text.RFind`.
- Reconcile.Materials: the separate `raw_costs` sum (app.py:679) is taken as the sum of the row costs. `Reconcile.CollectMaterials` proves the two lists agree.
- Plan generation on all three chat pages is modelled only as appending or storing the model's reply. Of the guided flow's later parse of the stored plan (app.py:478-493), only the cleaning step is modelled, by `Scrub.CleanJsonString`. The `json.loads` that follows, the replacement of the stored text by the parsed plan, and the halt on a decode error are not modelled.
- Questionnaire.GuidedSession, Chatbot.ChatbotSession and FollowUp.PlannerSession each model one page used on its own, starting from the state the page itself sets up. In the source the three pages share one `st.session_state`. They use the same keys `collected_info`, `chat_history` and `final_plan` (app.py:247-256, pages/5_ai_chatbot.py:27-34, pages/4_ai_assistant.py:16-17), and each page sets a key only when it is absent. Moving between pages in one browser session is not modelled, and neither are the failures it causes:
  - After pages/5_ai_chatbot.py, app.py:266 raises `KeyError` on "ProjectDescription".
  - After app.py, pages/5_ai_chatbot.py:39 and :60 raise `KeyError` on "Floors".
  - pages/4_ai_assistant.py:77 indexes `msg["role"]` on the message objects that the other two pages append.
  - app.py:325 reads `msg.content` on the dictionaries that pages/4_ai_assistant.py appends.
  - A `final_plan` stored by pages/5_ai_chatbot.py is parsed again by app.py:478-487.
- Summary.PlanPhase: the phase name is assumed present in every phase. The expander's "Description" is not modelled. In the source, pages/1_Model_Predictions.py:356 reads `row['Phase']` and `row['Description']` for every phase before the summary is built. A plan in which no phase has one of these keys raises `KeyError` there, and the run halts before lines 379-399. If only some phases carry "Phase", the others get a NaN caption at :387, and the phase-row test at :406-410 raises `AttributeError` on `.startswith`.
- Ill-typed JSON values are not modelled. Subphase durations and costs and item costs are `real` in the model. In the source, a null or string in `Duration (weeks)` or `Cost (USD)` makes the phase sums raise (pages/1_Model_Predictions.py:381-382). The same in `EstimatedCost` makes `sum(raw_costs)` raise (app.py:670, 679). The model excludes these inputs.
