/** The interactive credit-score calculator of the Credit Scoring screen: five threshold
    ladders summed onto a base of 300, clamped at 850, then banded at 750/650/500. */
module CreditScoring {

  import opened Wrappers

  /** The five form fields after `parseInt(field) || 0`: an empty or non-numeric field is 0. */
  datatype BorrowerData = BorrowerData(
    monthlyIncome: int,
    monthlyExpenses: int,
    existingDebt: int,
    businessAge: int,
    creditHistory: int)

  const BaseScore: int := 300
  const MaxScore: int := 850

  /** The comparison `debt / income < num / den` as JavaScript evaluates it on numbers.
      For a non-zero income it is decided by cross-multiplying (the inequality flips for a
      negative income). For income 0 the quotient is +Infinity (debt > 0), NaN (debt = 0)
      or -Infinity (debt < 0), and only -Infinity is below a finite threshold. */
  function RatioBelow(debt: int, income: int, num: nat, den: nat): (below: bool)
    requires den > 0
    ensures income != 0 ==>
              (below <==> (debt as real) / (income as real) < (num as real) / (den as real))
    ensures income == 0 ==> (below <==> debt < 0)
  {
    CrossMultiplied(debt, income, num, den);
    if income > 0 then debt * den < num * income
    else if income < 0 then debt * den > num * income
    else debt < 0
  }

  /** Over the rationals, `debt / income < num / den` is the cross-multiplied comparison,
      reversed when the income is negative. */
  lemma CrossMultiplied(debt: int, income: int, num: nat, den: nat)
    requires den > 0
    ensures income != 0 ==>
              ((debt as real) / (income as real) < (num as real) / (den as real)
               <==> (if income > 0 then debt * den < num * income else debt * den > num * income))
  {
    if income != 0 {
      var q := (debt as real) / (income as real);
      var t := (num as real) / (den as real);
      assert q * (income as real) == debt as real;
      assert t * (den as real) == num as real;
      var k := (income as real) * (den as real);
      assert q * k == (debt * den) as real;
      assert t * k == (num * income) as real;
      if income > 0 {
        assert k > 0.0;
      } else {
        assert k < 0.0;
      }
    }
  }

  /** Income factor: 150 / 100 / 50 / 0 points at 50000 / 30000 / 20000. */
  function IncomePoints(income: int): (p: int)
    ensures 0 <= p <= 150
    ensures p == 0 <==> income < 20000
  {
    if income >= 50000 then 150
    else if income >= 30000 then 100
    else if income >= 20000 then 50
    else 0
  }

  /** Debt-to-income factor: 150 / 100 / 50 / 0 points below 0.3 / 0.5 / 0.7. */
  function DebtToIncomePoints(debt: int, income: int): (p: int)
    ensures 0 <= p <= 150
    ensures income == 0 && debt >= 0 ==> p == 0
    ensures income == 0 && debt < 0 ==> p == 150
  {
    if RatioBelow(debt, income, 3, 10) then 150
    else if RatioBelow(debt, income, 5, 10) then 100
    else if RatioBelow(debt, income, 7, 10) then 50
    else 0
  }

  /** Cash-flow factor: 100 / 70 / 40 / 0 points at 20000 / 10000 / 5000. */
  function CashFlowPoints(cashFlow: int): (p: int)
    ensures 0 <= p <= 100
    ensures p == 0 <==> cashFlow < 5000
  {
    if cashFlow >= 20000 then 100
    else if cashFlow >= 10000 then 70
    else if cashFlow >= 5000 then 40
    else 0
  }

  /** Business-age factor: 100 / 70 / 40 / 0 points at 5 / 2 / 1 years. */
  function BusinessAgePoints(years: int): (p: int)
    ensures 0 <= p <= 100
    ensures p == 0 <==> years < 1
  {
    if years >= 5 then 100
    else if years >= 2 then 70
    else if years >= 1 then 40
    else 0
  }

  /** Credit-history factor: 100 / 70 / 40 / 0 points at 720 / 650 / 580. */
  function CreditHistoryPoints(history: int): (p: int)
    ensures 0 <= p <= 100
    ensures p == 0 <==> history < 580
  {
    if history >= 720 then 100
    else if history >= 650 then 70
    else if history >= 580 then 40
    else 0
  }

  /** The score before the clamp: the base plus the five contributions, at most 900. */
  function RawScore(d: BorrowerData): (r: int)
    ensures BaseScore <= r <= BaseScore + 150 + 150 + 100 + 100 + 100
  {
    BaseScore
    + IncomePoints(d.monthlyIncome)
    + DebtToIncomePoints(d.existingDebt, d.monthlyIncome)
    + CashFlowPoints(d.monthlyIncome - d.monthlyExpenses)
    + BusinessAgePoints(d.businessAge)
    + CreditHistoryPoints(d.creditHistory)
  }

  /** The published score `Math.min(850, raw)`: always within [300, 850]. */
  function Score(d: BorrowerData): (s: int)
    ensures BaseScore <= s <= MaxScore
    ensures s <= RawScore(d) && (s < RawScore(d) ==> s == MaxScore)
  {
    if RawScore(d) < MaxScore then RawScore(d) else MaxScore
  }

  /** `calculateCreditScore`: the local `score` is accumulated through the five ladders and
      then clamped. */
  method CalculateCreditScore(d: BorrowerData) returns (score: int)
    ensures score == Score(d)
    ensures BaseScore <= score <= MaxScore
  {
    var income := d.monthlyIncome;
    var expenses := d.monthlyExpenses;
    var debt := d.existingDebt;
    var cashFlow := income - expenses;

    score := BaseScore;

    if income >= 50000 { score := score + 150; }
    else if income >= 30000 { score := score + 100; }
    else if income >= 20000 { score := score + 50; }
    assert score == BaseScore + IncomePoints(income);

    if RatioBelow(debt, income, 3, 10) { score := score + 150; }
    else if RatioBelow(debt, income, 5, 10) { score := score + 100; }
    else if RatioBelow(debt, income, 7, 10) { score := score + 50; }
    assert score == BaseScore + IncomePoints(income) + DebtToIncomePoints(debt, income);

    if cashFlow >= 20000 { score := score + 100; }
    else if cashFlow >= 10000 { score := score + 70; }
    else if cashFlow >= 5000 { score := score + 40; }
    ghost var partial := score;
    assert partial == BaseScore + IncomePoints(income) + DebtToIncomePoints(debt, income)
                      + CashFlowPoints(cashFlow);

    if d.businessAge >= 5 { score := score + 100; }
    else if d.businessAge >= 2 { score := score + 70; }
    else if d.businessAge >= 1 { score := score + 40; }
    assert score == partial + BusinessAgePoints(d.businessAge);

    if d.creditHistory >= 720 { score := score + 100; }
    else if d.creditHistory >= 650 { score := score + 70; }
    else if d.creditHistory >= 580 { score := score + 40; }
    assert score == RawScore(d);

    score := if score < MaxScore then score else MaxScore;
  }

  /** The calculator's component state: `calculatedScore` is null until the first calculation. */
  class ScoreForm {
    var calculatedScore: Option<int>

    constructor ()
      ensures calculatedScore == None
    {
      calculatedScore := None;
    }

    /** The "Calculate Score" button. */
    method Calculate(d: BorrowerData)
      modifies this
      ensures calculatedScore == Some(Score(d))
      ensures ResultShown(calculatedScore)
    {
      var score := CalculateCreditScore(d);
      calculatedScore := Some(score);
    }
  }

  /** The result panel is rendered when `calculatedScore` is truthy: non-null and non-zero. */
  predicate ResultShown(calculated: Option<int>)
  {
    calculated.Some? && calculated.value != 0
  }

  /** Every calculation yields a score of at least 300, so the panel always appears. */
  lemma ResultAlwaysShown(d: BorrowerData)
    ensures ResultShown(Some(Score(d)))
  {
  }

  datatype Band = Poor | Fair | Good | Excellent

  /** `getScoreBadge(score).label`: a function of the score alone. */
  function ScoreBand(score: int): (b: Band)
    ensures b == Excellent <==> score >= 750
    ensures b == Good <==> 650 <= score < 750
    ensures b == Fair <==> 500 <= score < 650
    ensures b == Poor <==> score < 500
  {
    if score >= 750 then Excellent
    else if score >= 650 then Good
    else if score >= 500 then Fair
    else Poor
  }

  /** `getScoreBadge(score).label`: one word per band, no two bands sharing it. */
  function BandLabel(b: Band): (word: string)
    ensures word == "Excellent" <==> b == Excellent
    ensures word == "Good" <==> b == Good
    ensures word == "Fair" <==> b == Fair
    ensures word == "Poor" <==> b == Poor
  {
    match b
    case Excellent => "Excellent"
    case Good => "Good"
    case Fair => "Fair"
    case Poor => "Poor"
  }

  /** The badge label of a score follows the 750 / 650 / 500 cut points. */
  lemma ScoreBadgeLabel(score: int)
    ensures BandLabel(ScoreBand(score)) == "Excellent" <==> score >= 750
    ensures BandLabel(ScoreBand(score)) == "Good" <==> 650 <= score < 750
    ensures BandLabel(ScoreBand(score)) == "Fair" <==> 500 <= score < 650
    ensures BandLabel(ScoreBand(score)) == "Poor" <==> score < 500
  {
  }

  /** The colour tags of `getScoreColor`, kept as opaque tags. */
  datatype ScoreColor = Green | Yellow | Orange | Red

  function BandColor(b: Band): ScoreColor
  {
    match b
    case Excellent => Green
    case Good => Yellow
    case Fair => Orange
    case Poor => Red
  }

  /** `getScoreColor`: its own ladder, which always agrees with the band. */
  function ScoreColorOf(score: int): (c: ScoreColor)
    ensures c == BandColor(ScoreBand(score))
  {
    if score >= 750 then Green
    else if score >= 650 then Yellow
    else if score >= 500 then Orange
    else Red
  }

  function BandRecommendation(b: Band): string
  {
    match b
    case Excellent => "Excellent credit profile. Approved for premium rates."
    case Good => "Good credit profile. Consider standard rates with monitoring."
    case Fair => "Fair credit. Requires additional documentation and higher rates."
    case Poor => "Poor credit. High risk - consider rejection or secured loan."
  }

  /** The recommendation paragraph: its own ladder, which always agrees with the band. */
  function Recommendation(score: int): (text: string)
    ensures text == BandRecommendation(ScoreBand(score))
  {
    if score >= 750 then "Excellent credit profile. Approved for premium rates."
    else if score >= 650 then "Good credit profile. Consider standard rates with monitoring."
    else if score >= 500 then "Fair credit. Requires additional documentation and higher rates."
    else "Poor credit. High risk - consider rejection or secured loan."
  }

  /** An all-empty form scores the minimum, 300, band Poor. */
  lemma EmptyFormScore()
    ensures Score(BorrowerData(0, 0, 0, 0, 0)) == 300
    ensures ScoreBand(Score(BorrowerData(0, 0, 0, 0, 0))) == Poor
  {
  }

  /** With no income and a non-negative debt the debt-to-income test never passes. */
  lemma ZeroIncomeNoDebtPoints(debt: int)
    requires debt >= 0
    ensures DebtToIncomePoints(debt, 0) == 0
  {
  }

  /** The form's placeholder values: 300 + 150 + 0 + 100 + 70 + 70 = 690, band Good. */
  lemma PlaceholderScore()
    ensures RawScore(BorrowerData(50000, 30000, 100000, 3, 650)) == 690
    ensures Score(BorrowerData(50000, 30000, 100000, 3, 650)) == 690
    ensures ScoreBand(Score(BorrowerData(50000, 30000, 100000, 3, 650))) == Good
  {
  }

  /** Every factor at its top step gives the raw maximum 900, clamped to 850, Excellent. */
  lemma TopProfileScore()
    ensures RawScore(BorrowerData(60000, 10000, 1000, 6, 780)) == 900
    ensures Score(BorrowerData(60000, 10000, 1000, 6, 780)) == MaxScore
    ensures ScoreBand(Score(BorrowerData(60000, 10000, 1000, 6, 780))) == Excellent
  {
  }

  /** A longer business history never lowers the score. */
  lemma ScoreMonotoneInBusinessAge(d: BorrowerData, years: int)
    requires years >= d.businessAge
    ensures Score(d.(businessAge := years)) >= Score(d)
  {
  }

  /** A better credit history never lowers the score. */
  lemma ScoreMonotoneInCreditHistory(d: BorrowerData, history: int)
    requires history >= d.creditHistory
    ensures Score(d.(creditHistory := history)) >= Score(d)
  {
  }

  /** Higher expenses never raise the score. */
  lemma ScoreAntitoneInExpenses(d: BorrowerData, expenses: int)
    requires expenses >= d.monthlyExpenses
    ensures Score(d.(monthlyExpenses := expenses)) <= Score(d)
  {
  }

  /** With a non-negative debt, a higher non-negative income never lowers the score. */
  lemma ScoreMonotoneInIncome(d: BorrowerData, income: int)
    requires d.existingDebt >= 0 && 0 <= d.monthlyIncome <= income
    ensures Score(d.(monthlyIncome := income)) >= Score(d)
  {
    var debt := d.existingDebt;
    RatioBelowMonotone(debt, d.monthlyIncome, income, 3);
    RatioBelowMonotone(debt, d.monthlyIncome, income, 5);
    RatioBelowMonotone(debt, d.monthlyIncome, income, 7);
  }

  lemma RatioBelowMonotone(debt: int, income: int, income': int, num: nat)
    requires debt >= 0 && 0 <= income <= income'
    ensures RatioBelow(debt, income, num, 10) ==> RatioBelow(debt, income', num, 10)
  {
  }
}
