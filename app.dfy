/** The three-category MMP necessity calculator (EUR variant).

    Three sidebar widgets, a fixed budget threshold, the same two axes as the
    four-category calculator, but no gray zone: a high budget without
    complexity is told it does not need an MMP. The chart has one full-width
    region below the horizontal boundary and two above it. */
module App {
  import opened Chart
  import MmpCalculator
  import Display

  // ---------------------------------------------------------------------------
  // Inputs and constants
  // ---------------------------------------------------------------------------

  /** The values of the three sidebar widgets. */
  datatype Inputs = Inputs(monthlyBudget: int, numChannels: int, usesAffiliate: bool)

  const BudgetMax := 20000
  const ChannelsMax := 10
  /** The budget threshold, in EUR per month (about 50 000 CZK). */
  const BudgetThreshold := 2000

  /** The ranges the sliders allow. */
  predicate Valid(i: Inputs)
  {
    0 <= i.monthlyBudget <= BudgetMax && 1 <= i.numChannels <= ChannelsMax
  }

  // ---------------------------------------------------------------------------
  // The two axes and the verdict
  // ---------------------------------------------------------------------------

  function IsHighBudget(i: Inputs): bool
  {
    i.monthlyBudget >= BudgetThreshold
  }

  function IsHighComplexity(i: Inputs): bool
  {
    i.numChannels > 1 || i.usesAffiliate
  }

  datatype Category = Necessary | TechnicalNeed | DontNeed

  /** The if/elif chain choosing the verdict; high budget alone falls
      through to DontNeed. */
  function Verdict(highBudget: bool, highComplexity: bool): Category
  {
    if highComplexity && highBudget then Necessary
    else if highComplexity && !highBudget then TechnicalNeed
    else DontNeed
  }

  function Classify(i: Inputs): Category
  {
    Verdict(IsHighBudget(i), IsHighComplexity(i))
  }

  /** The three-category reading of a four-category verdict: the gray zone
      is folded into "don't need". */
  function Collapse(c: MmpCalculator.Category): Category
  {
    match c
    case Necessary => Necessary
    case GrayZone => DontNeed
    case TechnicalNeed => TechnicalNeed
    case NotNeeded => DontNeed
  }

  // ---------------------------------------------------------------------------
  // The decision chart
  // ---------------------------------------------------------------------------

  /** The y coordinate of the user's dot, as in the four-category calculator. */
  function VisualY(i: Inputs): real
  {
    if i.usesAffiliate && i.numChannels == 1 then 2.5 else i.numChannels as real
  }

  /** The coloured rectangle drawn for each category. */
  function Region(c: Category): Rect
  {
    var xt := BudgetThreshold as real;
    var xMax := BudgetMax as real;
    match c
    case DontNeed => Rect(0.0, 0.0, xMax, YThreshold)
    case TechnicalNeed => Rect(0.0, YThreshold, xt, YMax)
    case Necessary => Rect(xt, YThreshold, xMax, YMax)
  }

  /** Where the label naming each category is placed. */
  function LabelPosition(c: Category): (real, real)
  {
    var xt := BudgetThreshold as real;
    var xMax := BudgetMax as real;
    match c
    case DontNeed => (10000.0, YThreshold / 2.0)
    case TechnicalNeed => (xt / 2.0, (YThreshold + YMax) / 2.0)
    case Necessary => ((xt + xMax) / 2.0, (YThreshold + YMax) / 2.0)
  }

  // ---------------------------------------------------------------------------
  // Recommendation paragraphs
  // ---------------------------------------------------------------------------

  /** One recommendation paragraph, with the values its text interpolates;
      `plural` is whether "channel" is written with an 's'. */
  datatype Paragraph =
    | NecessaryIntro(budget: int, channels: int, plural: bool)
    | NecessaryWhy
    | TechnicalIntro(channels: int, mentionsAffiliate: bool, budget: int)
    | AffiliateRequiresMmp
    | TechnicalAdvice
    | DontNeedIntro(budget: int)
    | DontNeedAdvice

  /** The recommendation, by category. */
  function Recommendation(i: Inputs): seq<Paragraph>
  {
    match Classify(i)
    case Necessary => [NecessaryIntro(i.monthlyBudget, i.numChannels, i.numChannels > 1), NecessaryWhy]
    case TechnicalNeed =>
      [TechnicalIntro(i.numChannels, i.usesAffiliate, i.monthlyBudget)]
      + (if i.usesAffiliate then [AffiliateRequiresMmp] else [])
      + [TechnicalAdvice]
    case DontNeed => [DontNeedIntro(i.monthlyBudget), DontNeedAdvice]
  }

  /** Builds the recommendation the way the script does: one conditional
      append after another onto an initially empty list. */
  method BuildRecommendation(i: Inputs) returns (parts: seq<Paragraph>)
    requires Valid(i)
    ensures parts == Recommendation(i)
    ensures 2 <= |parts| <= 3
  {
    var category := Classify(i);
    parts := [];
    if category == Necessary {
      var plural := i.numChannels > 1;
      parts := parts + [NecessaryIntro(i.monthlyBudget, i.numChannels, plural)];
      parts := parts + [NecessaryWhy];
    } else if category == TechnicalNeed {
      parts := parts + [TechnicalIntro(i.numChannels, i.usesAffiliate, i.monthlyBudget)];
      if i.usesAffiliate {
        parts := parts + [AffiliateRequiresMmp];
      }
      parts := parts + [TechnicalAdvice];
    } else {
      parts := parts + [DontNeedIntro(i.monthlyBudget)];
      parts := parts + [DontNeedAdvice];
    }
  }

  /** The end of the script: build the recommendation, then show every
      paragraph followed by a spacer. */
  method ShowRecommendation(i: Inputs) returns (out: seq<Display.Block<Paragraph>>)
    requires Valid(i)
    ensures out == Display.Interleaved(Recommendation(i))
    ensures Display.Shown(out) == Recommendation(i)
  {
    var parts := BuildRecommendation(i);
    out := Display.Show(parts);
    Display.ShownInterleaved(parts);
  }

  // ---------------------------------------------------------------------------
  // Properties
  // ---------------------------------------------------------------------------

  /** The same inputs in the four-category calculator, with the budget
      converted at the 25 CZK per EUR that makes 2 000 EUR match 50 000 CZK. */
  function ToCzk(i: Inputs, iosShare: int): MmpCalculator.Inputs
  {
    MmpCalculator.Inputs(i.monthlyBudget * 25, i.numChannels, iosShare, i.usesAffiliate)
  }

  /** The fixed 2 000 EUR threshold is the four-category calculator's
      default 50 000 CZK threshold: for any iOS share up to 50, both axes
      agree, and so the verdicts agree up to Collapse. */
  lemma AxesMatchCzkVariant(i: Inputs, iosShare: int)
    requires 0 <= iosShare <= MmpCalculator.IosShareLimit
    ensures IsHighBudget(i) == MmpCalculator.IsHighBudget(ToCzk(i, iosShare))
    ensures IsHighComplexity(i) == MmpCalculator.IsHighComplexity(ToCzk(i, iosShare))
    ensures Classify(i) == Collapse(MmpCalculator.Classify(ToCzk(i, iosShare)))
  {
  }

  /** The three verdict rules, both directions. */
  lemma VerdictRules(i: Inputs)
    ensures Classify(i) == Necessary <==> IsHighComplexity(i) && IsHighBudget(i)
    ensures Classify(i) == TechnicalNeed <==> IsHighComplexity(i) && !IsHighBudget(i)
    ensures Classify(i) == DontNeed <==> !IsHighComplexity(i)
  {
  }

  /** Given the same two axes, this verdict is the four-category verdict with
      the gray zone read as "don't need". */
  lemma AgreesWithFourCategories(hb: bool, hc: bool)
    ensures Verdict(hb, hc) == Collapse(MmpCalculator.Verdict(hb, hc))
  {
  }

  /** The same agreement for whole inputs: when the four-category
      calculator's budget axis agrees with this one's, the verdicts agree up
      to Collapse. */
  lemma AgreesOnInputs(i: Inputs, j: MmpCalculator.Inputs)
    requires j.numChannels == i.numChannels && j.usesAffiliate == i.usesAffiliate
    requires MmpCalculator.IsHighBudget(j) == IsHighBudget(i)
    ensures Classify(i) == Collapse(MmpCalculator.Classify(j))
  {
    AgreesWithFourCategories(IsHighBudget(i), IsHighComplexity(i));
  }

  /** Raising the budget, with the channels and affiliates fixed, can only
      move TechnicalNeed to Necessary. */
  lemma BudgetMonotone(i: Inputs, j: Inputs)
    requires i.monthlyBudget <= j.monthlyBudget
    requires i.numChannels == j.numChannels && i.usesAffiliate == j.usesAffiliate
    ensures Classify(i) == Necessary ==> Classify(j) == Necessary
    ensures Classify(i) == DontNeed <==> Classify(j) == DontNeed
    ensures Classify(j) == Classify(i) || (Classify(i) == TechnicalNeed && Classify(j) == Necessary)
  {
  }

  /** The dot is above the horizontal boundary exactly when complexity is high. */
  lemma PositionMatchesAxes(i: Inputs)
    requires Valid(i)
    ensures VisualY(i) > YThreshold <==> IsHighComplexity(i)
    ensures i.monthlyBudget as real >= BudgetThreshold as real <==> IsHighBudget(i)
  {
  }

  /** The dot lies in the region drawn for its verdict, and strictly inside
      no other region. */
  lemma DotInVerdictRegion(i: Inputs, c: Category)
    requires Valid(i)
    ensures InRect(Region(Classify(i)), i.monthlyBudget as real, VisualY(i))
    ensures c != Classify(i) ==> !InInterior(Region(c), i.monthlyBudget as real, VisualY(i))
  {
    PositionMatchesAxes(i);
  }

  /** Each category's label is drawn at the centre of that category's region. */
  lemma LabelInOwnRegion(c: Category)
    ensures LabelPosition(c) == Center(Region(c))
    ensures InInterior(Region(c), LabelPosition(c).0, LabelPosition(c).1)
  {
  }

  /** The number of paragraphs per category. */
  lemma RecommendationCount(i: Inputs)
    ensures |Recommendation(i)| ==
      match Classify(i)
      case Necessary => 2
      case TechnicalNeed => if i.usesAffiliate then 3 else 2
      case DontNeed => 2
  {
  }

  /** The affiliate paragraph appears exactly for TechnicalNeed with affiliates. */
  lemma AffiliateParagraphGate(i: Inputs)
    ensures AffiliateRequiresMmp in Recommendation(i)
        <==> Classify(i) == TechnicalNeed && i.usesAffiliate
  {
  }

  /** The Necessary paragraph writes "channels" exactly when there is more
      than one channel, so the singular "1 marketing channel" is shown
      exactly to a one-channel app that uses affiliates and has a high budget. */
  lemma PluralChannels(i: Inputs)
    requires Valid(i)
    ensures Classify(i) == Necessary ==>
      Recommendation(i)[0].NecessaryIntro? && (Recommendation(i)[0].plural <==> i.numChannels > 1)
    ensures (Classify(i) == Necessary && !Recommendation(i)[0].plural)
        <==> i.numChannels == 1 && i.usesAffiliate && IsHighBudget(i)
  {
  }

  /** The DontNeed intro, which speaks of a single channel, is shown only to
      a one-channel app without affiliates. */
  lemma SingleChannelWording(i: Inputs)
    requires Valid(i) && Classify(i) == DontNeed
    ensures Recommendation(i)[0] == DontNeedIntro(i.monthlyBudget)
    ensures i.numChannels == 1 && !i.usesAffiliate
  {
  }

  /** The DontNeed advice says a second channel or a higher budget makes an
      MMP worthwhile; here only the second channel changes the verdict. */
  lemma DontNeedAdviceOnlyPartlyHolds(i: Inputs, j: Inputs)
    requires Valid(i) && Classify(i) == DontNeed
    requires j == i.(monthlyBudget := j.monthlyBudget) && i.monthlyBudget <= j.monthlyBudget
    ensures Classify(i.(numChannels := 2)) != DontNeed
    ensures Classify(j) == DontNeed
  {
  }
}
