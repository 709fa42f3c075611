# MMP necessity calculator — decision rules in Dafny

The repository holds two Streamlit scripts. Both answer one question for a
mobile-app marketer: "do I need a Mobile Measurement Partner (MMP)?"

- `mmp_calculator.py` is the Czech (CZK) calculator with four verdicts:
  Necessary, Gray Zone (risk), Technical Need and Not Needed. Its budget
  threshold is 50 000 CZK per month. It drops to 20 000 CZK when more than
  50 % of users are on iOS.
- `app.py` is the English (EUR) calculator with three verdicts: Necessary,
  Technical Need and "you don't need an MMP". Its threshold is fixed at
  2 000 EUR. It has no gray zone: a high budget with a single channel and
  no affiliates is told it does not need an MMP.

Each script derives two booleans: a high budget (the budget is at least
the threshold) and high complexity (more than one channel, or affiliate
partners). They also place the user's dot on a chart. The dot's y value
is the channel count, except that one channel with affiliates is drawn
at 2.5. The scripts then build a list of recommendation paragraphs with
conditional appends and show each paragraph followed by an empty spacer.

The model is split into four modules:

- `Chart` (`chart.dfy`): chart rectangles and the 1.5 boundary.
- `Display` (`display.dfy`): the final loop that shows each paragraph,
  as a trace of markdown calls.
- `MmpCalculator` (`mmp_calculator.dfy`): the four-category script.
- `App` (`app.dfy`): the three-category script. It also holds the lemmas
  relating it to the four-category script.

Paragraphs are tags that carry the values the text interpolates (budget,
channel count, iOS share, whether "channel" takes an 's'). They are not
the Czech or English prose. The slider ranges are preconditions (`Valid`).
The 1.5 and 2.5 chart coordinates are exact `real`s.

Three points of scope, all following the code:

- Neither script has SKAN relevance tiering, a dedicated iOS budget, an
  app category, a monetisation model or an acquisition goal.
- The thresholds are 50 000 / 20 000 CZK and 2 000 EUR.
- The two verdict schemes are two separate scripts, not one engine with
  a mode flag. Their relationship is stated as lemmas (`App.Collapse`
  folds the gray zone into "don't need").

## Model

| member | source | states |
|---|---|---|
| `MmpCalculator.Valid` | mmp_calculator.py:25-51 | no contract; the slider ranges: budget 0..500 000, channels 1..10, iOS share 0..100 |
| `MmpCalculator.IsHighBudget` | mmp_calculator.py:73 | no contract; the comparison as written |
| `MmpCalculator.IsHighComplexity` | mmp_calculator.py:74 | no contract; the comparison as written |
| `MmpCalculator.Verdict` | mmp_calculator.py:242-257 | no contract; the branch chain as written |
| `MmpCalculator.Classify` | mmp_calculator.py:242-257 | no contract; the verdict of the two axes |
| `MmpCalculator.VisualY` | mmp_calculator.py:77-79 | no contract; the reassignment as written |
| `MmpCalculator.Region` | mmp_calculator.py:88-127 | no contract; the four rectangles as drawn |
| `MmpCalculator.LabelPosition` | mmp_calculator.py:130-163 | no contract; the four annotation positions as written |
| `MmpCalculator.LoweredNoteShown` | mmp_calculator.py:323-330 | no contract; the two nested gates as written |
| `MmpCalculator.Recommendation` | mmp_calculator.py:262-334 | no contract; the main assessment followed by the iOS notes |
| `MmpCalculator.Threshold` | mmp_calculator.py:66-70 | the effective threshold is 20 000 or 50 000 and nothing else, and it is 20 000 exactly when the iOS share is above 50 |
| `MmpCalculator.ThresholdAntitone` | mmp_calculator.py:69-70 | a larger iOS share never gives a larger threshold |
| `MmpCalculator.AxesDefinition` | mmp_calculator.py:66-74 | high budget iff budget >= 50 000, or budget >= 20 000 with an iOS share above 50; high complexity iff more than one channel or affiliates |
| `MmpCalculator.VerdictBijection` | mmp_calculator.py:242-257 | the verdict maps the four (budget, complexity) pairs one-to-one onto the four categories, with `Axes` as its inverse: (T,T) Necessary, (T,F) Gray Zone, (F,T) Technical Need, (F,F) Not Needed |
| `MmpCalculator.BudgetMonotone` | mmp_calculator.py:66-74 | raising the budget or the iOS share (channels and affiliates fixed) never loses a high budget; the verdict stays the same, or goes from Technical Need to Necessary, or from Not Needed to Gray Zone |
| `MmpCalculator.PositionMatchesAxes` | mmp_calculator.py:73-86 | the dot is above y = 1.5 iff complexity is high (the slider's lower bound of one channel is needed); the second clause, at or right of the x threshold iff the budget is high, is definitional, since x_threshold is the effective threshold |
| `MmpCalculator.DotInVerdictRegion` | mmp_calculator.py:77-127 | the dot lies in the rectangle drawn for its verdict and strictly inside none of the other three |
| `MmpCalculator.LabelInOwnRegion` | mmp_calculator.py:129-163 | each category's label sits at the centre, inside, of that category's rectangle |
| `MmpCalculator.MainAssessment` | mmp_calculator.py:264-320 | the main assessment has two or three paragraphs, none of them an iOS note |
| `MmpCalculator.IosNotes` | mmp_calculator.py:322-334 | at most two paragraphs follow the main assessment, all of them iOS notes |
| `MmpCalculator.MainAssessmentCount` | mmp_calculator.py:264-320 | paragraph counts: Necessary 2, Gray Zone 3, Technical Need 3 with affiliates and 2 without, Not Needed 2 |
| `MmpCalculator.AffiliateParagraphGate` | mmp_calculator.py:290-308 | the affiliate paragraph appears iff the verdict is Technical Need and affiliates are used |
| `MmpCalculator.IosNotesGate` | mmp_calculator.py:322-334 | the iOS warning appears iff the share is above 50; the threshold-lowered note appears iff, in addition, 20 000 <= budget < 50 000; when it appears the verdict is Necessary or Gray Zone |
| `MmpCalculator.IosNotesLast` | mmp_calculator.py:262-334 | once an iOS note appears, every later paragraph is an iOS note |
| `MmpCalculator.RecommendationCount` | mmp_calculator.py:262-334 | total length = main assessment + 1 for the iOS warning + 1 for the threshold-lowered note |
| `MmpCalculator.SingleChannelWording` | mmp_calculator.py:275-320 | the Gray Zone and Not Needed intros, which speak of a single channel, are shown only to a one-channel app without affiliates |
| `MmpCalculator.NotNeededAdviceHolds` | mmp_calculator.py:310-320 | from Not Needed, a second channel gives Technical Need and a budget at the threshold gives Gray Zone, as the advice says |
| `MmpCalculator.BuildRecommendation` | mmp_calculator.py:262-334 | the appends build exactly the main assessment for the verdict followed by the iOS notes, at most five paragraphs |
| `MmpCalculator.ShowRecommendation` | mmp_calculator.py:336-339 | the markdown calls show exactly the recommendation paragraphs in order, each followed by a spacer |
| `App.AxesMatchCzkVariant` | app.py:52-58 | with the budget converted at 25 CZK per EUR (2 000 EUR matching 50 000 CZK, as the threshold's comment says) and any iOS share up to 50, both axes equal the four-category calculator's, and the verdict equals its verdict with Gray Zone read as "don't need" |
| `App.Valid` | app.py:24-40 | no contract; the slider ranges: budget 0..20 000, channels 1..10 |
| `App.IsHighBudget` | app.py:57 | no contract; the comparison as written |
| `App.IsHighComplexity` | app.py:58 | no contract; the comparison as written |
| `App.Verdict` | app.py:213-224 | no contract; the branch chain as written |
| `App.Classify` | app.py:213-224 | no contract; the verdict of the two axes |
| `App.Collapse` | app.py:213-224 | no contract; Gray Zone and Not Needed become "don't need", the others keep their name |
| `App.VisualY` | app.py:61-63 | no contract; the reassignment as written |
| `App.Region` | app.py:72-101 | no contract; the three regions as drawn |
| `App.LabelPosition` | app.py:104-129 | no contract; the three annotation positions as written |
| `App.Recommendation` | app.py:229-275 | no contract; the branch chain as written |
| `App.VerdictRules` | app.py:213-224 | Necessary iff complex and high budget; Technical Need iff complex and not high budget; "don't need" iff not complex, so a high budget alone gives "don't need" |
| `App.AgreesWithFourCategories` | app.py:213-224 | for the same two booleans, the three-way verdict is the four-way verdict with Gray Zone read as "don't need" |
| `App.AgreesOnInputs` | app.py:213-224 | the same agreement for whole inputs of the two scripts whose budget axes agree |
| `App.BudgetMonotone` | app.py:53-58 | raising the budget can only move Technical Need to Necessary; Necessary stays Necessary and "don't need" never changes |
| `App.PositionMatchesAxes` | app.py:57-70 | the dot is above y = 1.5 iff complexity is high (the slider's lower bound of one channel is needed); the second clause, at or right of x = 2 000 iff the budget is high, is definitional |
| `App.DotInVerdictRegion` | app.py:61-101 | the dot lies in the region drawn for its verdict (the full-width green band below 1.5, blue left of 2 000 above it, red right of it) and strictly inside no other region |
| `App.LabelInOwnRegion` | app.py:103-129 | each category's label sits at the centre, inside, of that category's region |
| `App.RecommendationCount` | app.py:231-275 | paragraph counts: Necessary 2, Technical Need 3 with affiliates and 2 without, "don't need" 2 |
| `App.AffiliateParagraphGate` | app.py:245-263 | the affiliate paragraph appears iff the verdict is Technical Need and affiliates are used |
| `App.PluralChannels` | app.py:232-236 | the Necessary intro writes "channels" with an 's' iff there is more than one channel, so the singular "1 marketing channel" is shown exactly to a one-channel app with affiliates and a high budget |
| `App.SingleChannelWording` | app.py:265-269 | the "don't need" intro, which speaks of a single marketing channel, opens the recommendation and is shown only to a one-channel app without affiliates |
| `App.DontNeedAdviceOnlyPartlyHolds` | app.py:265-275 | from "don't need", a second channel changes the verdict, but no budget increase does |
| `App.BuildRecommendation` | app.py:228-275 | the appends build exactly the paragraphs for the verdict, two or three of them |
| `App.ShowRecommendation` | app.py:277-280 | the markdown calls show exactly the recommendation paragraphs in order, each followed by a spacer |
| `Chart.Center` | app.py:103-129 | a rectangle's centre, where labels are placed, lies strictly inside it |
| `Display.Interleaved` | app.py:278-280 | the loop makes two markdown calls per paragraph |
| `Display.InterleavedAt` | app.py:278-280 | call 2k shows paragraph k and call 2k+1 is the empty spacer |
| `Display.ShownInterleaved` | mmp_calculator.py:337-339 | dropping the spacers from the trace gives back the paragraphs, in order |
| `Display.Shown` | app.py:278-280 | no contract; the paragraphs of a trace, spacers dropped |
| `Display.Show` | mmp_calculator.py:337-339 | the display loop produces exactly the interleaved trace |

## Left out

- Streamlit widgets, page set-up, sidebar metrics, headers and the
  information and footer sections are UI input and output
  (mmp_calculator.py:11-63 and 341-377, app.py:11-46 and 282-302). Only
  the slider ranges remain, as `Valid`.
- The verdict block's own output is left out: the separator, the header
  and subheader, and the category heading with its icon
  (mmp_calculator.py:238-239 and 259, app.py:204-210 and 226).
- Slider steps (5 000 CZK, 5 %, 200 EUR) are not required by `Valid`.
  Every property holds for every integer in the ranges, so steps would
  only narrow them.
- Plotly figure building (colours, dashed lines, layout, hover text) is
  rendering through a library that is not part of this model. Only the
  rectangle bounds and label positions are kept, to state where the dot
  and the labels lie.
- `st.markdown` itself is output. Only the calls inside the display loop
  (mmp_calculator.py:337-339, app.py:278-280) are modelled, as one trace
  entry per call, not as rendered markdown.
- The verdict colour and icon strings, the paragraph prose, and the
  thousands-separator formatting of budgets are presentation. Paragraphs
  are tags that carry the interpolated values.
- The `numpy` import is unused in both scripts.
- In the source, `visual_channels` is a Python int or the float 2.5. The
  model uses exact reals throughout, so no floating-point rounding is
  modelled (none can arise with these values).
