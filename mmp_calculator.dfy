/** The four-category MMP necessity calculator (CZK variant).

    Inputs come from four sidebar widgets; the script derives an effective
    budget threshold from the iOS share, two booleans (high budget, high
    complexity), a verdict out of four, the y position of the user's dot on
    the decision chart, and an ordered list of recommendation paragraphs.
    Paragraphs are represented by tags carrying the values interpolated into
    their text, not by the prose itself. */
module MmpCalculator {
  import opened Chart
  import Display

  // ---------------------------------------------------------------------------
  // Inputs and constants
  // ---------------------------------------------------------------------------

  /** The values of the four sidebar widgets. */
  datatype Inputs = Inputs(monthlyBudget: int, numChannels: int, iosShare: int, usesAffiliate: bool)

  const BudgetMax := 500000
  const ChannelsMax := 10
  /** Default threshold, in CZK per month. */
  const BaseThreshold := 50000
  /** Lowered threshold used for iOS-heavy apps. */
  const IosThreshold := 20000
  /** An iOS share strictly above this (in percent) counts as iOS-heavy. */
  const IosShareLimit := 50

  /** The ranges the sliders allow. */
  predicate Valid(i: Inputs)
  {
    0 <= i.monthlyBudget <= BudgetMax &&
    1 <= i.numChannels <= ChannelsMax &&
    0 <= i.iosShare <= 100
  }

  // ---------------------------------------------------------------------------
  // Threshold, the two axes, the verdict
  // ---------------------------------------------------------------------------

  /** The effective budget threshold: a step function of the iOS share. */
  function Threshold(iosShare: int): (t: int)
    ensures t == IosThreshold || t == BaseThreshold
    ensures t == IosThreshold <==> iosShare > IosShareLimit
  {
    if iosShare > IosShareLimit then IosThreshold else BaseThreshold
  }

  function IsHighBudget(i: Inputs): bool
  {
    i.monthlyBudget >= Threshold(i.iosShare)
  }

  function IsHighComplexity(i: Inputs): bool
  {
    i.numChannels > 1 || i.usesAffiliate
  }

  datatype Category = Necessary | GrayZone | TechnicalNeed | NotNeeded

  /** The if/elif chain choosing the verdict from the two axes. */
  function Verdict(highBudget: bool, highComplexity: bool): Category
  {
    if highBudget && highComplexity then Necessary
    else if highBudget && !highComplexity then GrayZone
    else if !highBudget && highComplexity then TechnicalNeed
    else NotNeeded
  }

  function Classify(i: Inputs): Category
  {
    Verdict(IsHighBudget(i), IsHighComplexity(i))
  }

  /** The (high budget, high complexity) pair a category stands for: the
      right half of the chart is high budget, the upper half high complexity. */
  function Axes(c: Category): (bool, bool)
  {
    match c
    case Necessary => (true, true)
    case GrayZone => (true, false)
    case TechnicalNeed => (false, true)
    case NotNeeded => (false, false)
  }

  // ---------------------------------------------------------------------------
  // The decision chart
  // ---------------------------------------------------------------------------

  /** The y coordinate of the user's dot: the channel count, except that a
      single channel with affiliates is drawn at 2.5. */
  function VisualY(i: Inputs): real
  {
    if i.usesAffiliate && i.numChannels == 1 then 2.5 else i.numChannels as real
  }

  /** The coloured rectangle drawn for each category, with the threshold as
      the vertical boundary and 1.5 as the horizontal one. */
  function Region(c: Category, threshold: int): Rect
  {
    var xt := threshold as real;
    var xMax := BudgetMax as real;
    match c
    case NotNeeded => Rect(0.0, 0.0, xt, YThreshold)
    case TechnicalNeed => Rect(0.0, YThreshold, xt, YMax)
    case GrayZone => Rect(xt, 0.0, xMax, YThreshold)
    case Necessary => Rect(xt, YThreshold, xMax, YMax)
  }

  /** Where the label naming each category is placed. */
  function LabelPosition(c: Category, threshold: int): (real, real)
  {
    var xt := threshold as real;
    var xMax := BudgetMax as real;
    match c
    case NotNeeded => (xt / 2.0, YThreshold / 2.0)
    case TechnicalNeed => (xt / 2.0, (YThreshold + YMax) / 2.0)
    case GrayZone => ((xt + xMax) / 2.0, YThreshold / 2.0)
    case Necessary => ((xt + xMax) / 2.0, (YThreshold + YMax) / 2.0)
  }

  // ---------------------------------------------------------------------------
  // Recommendation paragraphs
  // ---------------------------------------------------------------------------

  /** One recommendation paragraph, with the values its text interpolates. */
  datatype Paragraph =
    | NecessaryIntro(budget: int, channels: int)
    | NecessaryWhy
    | GrayZoneIntro(budget: int)
    | GrayZoneRisks
    | GrayZoneAdvice
    | TechnicalIntro(channels: int, mentionsAffiliate: bool, budget: int)
    | AffiliateRequiresMmp
    | TechnicalAdvice
    | NotNeededIntro(budget: int)
    | NotNeededAdvice
    | IosWarning(share: int)
    | ThresholdLowered

  /** The two notes addressed to iOS-heavy apps. */
  predicate IsIosNote(p: Paragraph)
  {
    p.IosWarning? || p == ThresholdLowered
  }

  /** The paragraphs of the main assessment, by category. */
  function MainAssessment(c: Category, i: Inputs): (r: seq<Paragraph>)
    ensures 2 <= |r| <= 3
    ensures forall k :: 0 <= k < |r| ==> !IsIosNote(r[k])
  {
    match c
    case Necessary => [NecessaryIntro(i.monthlyBudget, i.numChannels), NecessaryWhy]
    case GrayZone => [GrayZoneIntro(i.monthlyBudget), GrayZoneRisks, GrayZoneAdvice]
    case TechnicalNeed =>
      [TechnicalIntro(i.numChannels, i.usesAffiliate, i.monthlyBudget)]
      + (if i.usesAffiliate then [AffiliateRequiresMmp] else [])
      + [TechnicalAdvice]
    case NotNeeded => [NotNeededIntro(i.monthlyBudget), NotNeededAdvice]
  }

  /** The "threshold lowered" note is gated on the literal band 20 000 to
      50 000, not on the effective threshold. */
  predicate LoweredNoteShown(i: Inputs)
  {
    i.iosShare > IosShareLimit && IosThreshold <= i.monthlyBudget < BaseThreshold
  }

  /** The iOS notes that follow the main assessment. */
  function IosNotes(i: Inputs): (r: seq<Paragraph>)
    ensures forall k :: 0 <= k < |r| ==> IsIosNote(r[k])
    ensures |r| <= 2
  {
    if i.iosShare > IosShareLimit then
      [IosWarning(i.iosShare)] + (if LoweredNoteShown(i) then [ThresholdLowered] else [])
    else []
  }

  /** The whole recommendation, in display order. */
  function Recommendation(i: Inputs): seq<Paragraph>
  {
    MainAssessment(Classify(i), i) + IosNotes(i)
  }

  /** Builds the recommendation the way the script does: one conditional
      append after another onto an initially empty list. */
  method BuildRecommendation(i: Inputs) returns (parts: seq<Paragraph>)
    requires Valid(i)
    ensures parts == Recommendation(i)
    ensures |parts| <= 5
  {
    var category := Classify(i);
    parts := [];
    if category == Necessary {
      parts := parts + [NecessaryIntro(i.monthlyBudget, i.numChannels)];
      parts := parts + [NecessaryWhy];
    } else if category == GrayZone {
      parts := parts + [GrayZoneIntro(i.monthlyBudget)];
      parts := parts + [GrayZoneRisks];
      parts := parts + [GrayZoneAdvice];
    } else if category == TechnicalNeed {
      parts := parts + [TechnicalIntro(i.numChannels, i.usesAffiliate, i.monthlyBudget)];
      if i.usesAffiliate {
        parts := parts + [AffiliateRequiresMmp];
      }
      parts := parts + [TechnicalAdvice];
    } else {
      parts := parts + [NotNeededIntro(i.monthlyBudget)];
      parts := parts + [NotNeededAdvice];
    }
    if i.iosShare > 50 {
      parts := parts + [IosWarning(i.iosShare)];
      if i.monthlyBudget >= 20000 && i.monthlyBudget < 50000 {
        parts := parts + [ThresholdLowered];
      }
    }
  }

  /** The end of the script: build the recommendation, then show every
      paragraph followed by a spacer. */
  method ShowRecommendation(i: Inputs) returns (out: seq<Display.Block<Paragraph>>)
    requires Valid(i)
    ensures out == Display.Interleaved(Recommendation(i))
    ensures Display.Shown(out) == Recommendation(i)
  {
    var parts := BuildRecommendation(i);
    out := Display.Show(parts);
    Display.ShownInterleaved(parts);
  }

  // ---------------------------------------------------------------------------
  // Properties
  // ---------------------------------------------------------------------------

  /** Raising the iOS share never raises the threshold. */
  lemma ThresholdAntitone(s: int, s': int)
    requires s <= s'
    ensures Threshold(s') <= Threshold(s)
  {
  }

  /** Each axis in terms of the raw inputs: a budget is high at 50 000, or
      at 20 000 for an iOS share above 50. */
  lemma AxesDefinition(i: Inputs)
    ensures IsHighBudget(i) <==>
      i.monthlyBudget >= BaseThreshold || (i.iosShare > IosShareLimit && i.monthlyBudget >= IosThreshold)
    ensures IsHighComplexity(i) <==> i.numChannels > 1 || i.usesAffiliate
  {
  }

  /** The verdict is a bijection between the four axis pairs and the four
      categories, with Axes as its inverse. */
  lemma VerdictBijection(hb: bool, hc: bool, c: Category)
    ensures Axes(Verdict(hb, hc)) == (hb, hc)
    ensures Verdict(Axes(c).0, Axes(c).1) == c
  {
  }

  /** Raising the budget or the iOS share, with the channels and affiliates
      fixed, never loses a high budget: the verdict stays put or moves from
      TechnicalNeed to Necessary or from NotNeeded to GrayZone. */
  lemma BudgetMonotone(i: Inputs, j: Inputs)
    requires i.monthlyBudget <= j.monthlyBudget && i.iosShare <= j.iosShare
    requires i.numChannels == j.numChannels && i.usesAffiliate == j.usesAffiliate
    ensures IsHighBudget(i) ==> IsHighBudget(j)
    ensures Classify(i) in {Necessary, GrayZone} ==> Classify(j) == Classify(i)
    ensures Classify(j) == Classify(i)
         || (Classify(i) == TechnicalNeed && Classify(j) == Necessary)
         || (Classify(i) == NotNeeded && Classify(j) == GrayZone)
  {
    ThresholdAntitone(i.iosShare, j.iosShare);
  }

  /** The dot is above the horizontal boundary exactly when complexity is
      high, and right of the vertical one exactly when the budget is high. */
  lemma PositionMatchesAxes(i: Inputs)
    requires Valid(i)
    ensures VisualY(i) > YThreshold <==> IsHighComplexity(i)
    ensures i.monthlyBudget as real >= Threshold(i.iosShare) as real <==> IsHighBudget(i)
  {
  }

  /** The dot lies in the region drawn for its verdict, and strictly inside
      no other region. */
  lemma DotInVerdictRegion(i: Inputs, c: Category)
    requires Valid(i)
    ensures InRect(Region(Classify(i), Threshold(i.iosShare)), i.monthlyBudget as real, VisualY(i))
    ensures c != Classify(i) ==>
      !InInterior(Region(c, Threshold(i.iosShare)), i.monthlyBudget as real, VisualY(i))
  {
    PositionMatchesAxes(i);
  }

  /** Each category's label is drawn at the centre of that category's region,
      so the region the dot lies in is the one labelled with the verdict. */
  lemma LabelInOwnRegion(c: Category, threshold: int)
    requires threshold == IosThreshold || threshold == BaseThreshold
    ensures LabelPosition(c, threshold) == Center(Region(c, threshold))
    ensures InInterior(Region(c, threshold), LabelPosition(c, threshold).0, LabelPosition(c, threshold).1)
  {
  }

  /** The number of main-assessment paragraphs per category. */
  lemma MainAssessmentCount(i: Inputs)
    ensures |MainAssessment(Classify(i), i)| ==
      match Classify(i)
      case Necessary => 2
      case GrayZone => 3
      case TechnicalNeed => if i.usesAffiliate then 3 else 2
      case NotNeeded => 2
  {
  }

  /** The affiliate paragraph appears exactly for TechnicalNeed with affiliates. */
  lemma AffiliateParagraphGate(i: Inputs)
    ensures AffiliateRequiresMmp in Recommendation(i)
        <==> Classify(i) == TechnicalNeed && i.usesAffiliate
  {
  }

  /** The iOS warning appears exactly when the share is above 50, and the
      lowered-threshold note exactly when, in addition, the budget is in
      [20 000, 50 000); the latter only ever accompanies a high budget. */
  lemma IosNotesGate(i: Inputs)
    ensures IosWarning(i.iosShare) in Recommendation(i) <==> i.iosShare > IosShareLimit
    ensures ThresholdLowered in Recommendation(i) <==> LoweredNoteShown(i)
    ensures LoweredNoteShown(i) ==> Classify(i) in {Necessary, GrayZone}
  {
  }

  /** The iOS notes come after every main-assessment paragraph. */
  lemma IosNotesLast(i: Inputs, a: nat, b: nat)
    requires a < b < |Recommendation(i)|
    requires IsIosNote(Recommendation(i)[a])
    ensures IsIosNote(Recommendation(i)[b])
  {
  }

  /** The total length of the recommendation. */
  lemma RecommendationCount(i: Inputs)
    ensures |Recommendation(i)| == |MainAssessment(Classify(i), i)|
      + (if i.iosShare > IosShareLimit then 1 else 0)
      + (if LoweredNoteShown(i) then 1 else 0)
  {
  }

  /** The paragraphs that say "a single channel" (gray zone and not needed)
      are only ever shown to a one-channel app without affiliates. */
  lemma SingleChannelWording(i: Inputs)
    requires Valid(i)
    requires GrayZoneIntro(i.monthlyBudget) in Recommendation(i)
          || NotNeededIntro(i.monthlyBudget) in Recommendation(i)
    ensures i.numChannels == 1 && !i.usesAffiliate
  {
  }

  /** The advice given with NotNeeded holds here: a second channel or a
      budget at the threshold each lead to a verdict other than NotNeeded. */
  lemma NotNeededAdviceHolds(i: Inputs)
    requires Valid(i) && Classify(i) == NotNeeded
    ensures Classify(i.(numChannels := 2)) == TechnicalNeed
    ensures Classify(i.(monthlyBudget := Threshold(i.iosShare))) == GrayZone
  {
  }
}
