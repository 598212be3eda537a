/**
 * Rule-based scoring of bank customers (isbank_simple_analysis.py): four
 * bucket scores, their total, the segment and potential level, the
 * customer-lifetime-value formula, customer ids, and the age groups.
 * The random draws of the script are the fields of `CustomerDraw`.
 */
module IsbankScoring {
  import opened Wrappers
  import Text

  /** Number of customers the script generates. */
  const CUSTOMERS: nat := 1000

  /** The ages `randint(25, 70)` can draw: 25 up to and including 69. */
  predicate DrawableAge(age: int) {
    25 <= age < 70
  }

  predicate IsComponentScore(s: int) {
    s == 5 || s == 10 || s == 15 || s == 20 || s == 25
  }

  function IncomeScore(income: real): (r: int)
    ensures IsComponentScore(r)
  {
    if income > 100000.0 then 25
    else if income > 75000.0 then 20
    else if income > 50000.0 then 15
    else if income > 30000.0 then 10
    else 5
  }

  function BalanceScore(balance: real): (r: int)
    ensures IsComponentScore(r)
  {
    if balance > 200000.0 then 25
    else if balance > 100000.0 then 20
    else if balance > 50000.0 then 15
    else if balance > 25000.0 then 10
    else 5
  }

  /** Unrecognised education levels fall to the last branch. */
  function EducationScore(level: string): (r: int)
    ensures IsComponentScore(r) && r != 5
  {
    if level == "PhD" then 25
    else if level == "Master" then 20
    else if level == "Bachelor" then 15
    else 10
  }

  function ActivityScore(transactions: int): (r: int)
    ensures IsComponentScore(r)
  {
    if transactions > 40 then 25
    else if transactions > 30 then 20
    else if transactions > 20 then 15
    else if transactions > 10 then 10
    else 5
  }

  lemma IncomeScoreMonotone(a: real, b: real)
    requires a <= b
    ensures IncomeScore(a) <= IncomeScore(b)
  {
  }

  lemma BalanceScoreMonotone(a: real, b: real)
    requires a <= b
    ensures BalanceScore(a) <= BalanceScore(b)
  {
  }

  lemma ActivityScoreMonotone(a: int, b: int)
    requires a <= b
    ensures ActivityScore(a) <= ActivityScore(b)
  {
  }

  /** The thresholds are strict: a value equal to a threshold scores in the bucket below. */
  lemma ThresholdsAreStrict()
    ensures IncomeScore(100000.0) == 20 && IncomeScore(75000.0) == 15
    ensures IncomeScore(50000.0) == 10 && IncomeScore(30000.0) == 5
    ensures BalanceScore(200000.0) == 20 && BalanceScore(100000.0) == 15
    ensures BalanceScore(50000.0) == 10 && BalanceScore(25000.0) == 5
    ensures ActivityScore(40) == 20 && ActivityScore(30) == 15
    ensures ActivityScore(20) == 10 && ActivityScore(10) == 5
  {
  }

  /** The total potential score: a multiple of 5 between 25 and 100. */
  function TotalScore(income: real, balance: real, education: string, transactions: int): (r: int)
    ensures 25 <= r <= 100 && r % 5 == 0
    ensures r - IncomeScore(income) - BalanceScore(balance) - EducationScore(education) == ActivityScore(transactions)
  {
    var i, b, e, a := IncomeScore(income), BalanceScore(balance), EducationScore(education), ActivityScore(transactions);
    SumOfMultiples(i, b);
    SumOfMultiples(i + b, e);
    SumOfMultiples(i + b + e, a);
    i + b + e + a
  }

  lemma SumOfMultiples(x: int, y: int)
    requires x % 5 == 0 && y % 5 == 0
    ensures (x + y) % 5 == 0
  {
  }

  /** A segment name with its potential level. */
  datatype Tier = Tier(segment: string, level: string)

  const TIERS: seq<Tier> := [
    Tier("Ultra High Potential", "A+"),
    Tier("High Potential", "A"),
    Tier("Medium-High Potential", "B+"),
    Tier("Medium Potential", "B"),
    Tier("Standard Potential", "C")
  ]

  /**
   * The tier a total score falls in; `TierRank` is the position in `TIERS`
   * (0 is the best tier).
   */
  function TierRank(total: int): (k: nat)
    ensures k < |TIERS|
    ensures k == 0 <==> total >= 80
    ensures k == |TIERS| - 1 <==> total < 50
  {
    if total >= 80 then 0
    else if total >= 70 then 1
    else if total >= 60 then 2
    else if total >= 50 then 3
    else 4
  }

  function TierOf(total: int): (t: Tier)
    ensures t in TIERS
  {
    if total >= 80 then Tier("Ultra High Potential", "A+")
    else if total >= 70 then Tier("High Potential", "A")
    else if total >= 60 then Tier("Medium-High Potential", "B+")
    else if total >= 50 then Tier("Medium Potential", "B")
    else Tier("Standard Potential", "C")
  }

  /** The if/elif chain picks the `TierRank`-th tier, and it never gets worse as the score rises. */
  lemma TierOfRank(a: int, b: int)
    ensures TierOf(a) == TIERS[TierRank(a)]
    ensures a <= b ==> TierRank(b) <= TierRank(a)
  {
  }

  /** Each potential level goes with exactly one segment name, and the other way round. */
  lemma {:induction false} LevelDeterminesSegment(a: int, b: int)
    ensures TierOf(a).level == TierOf(b).level <==> TierOf(a).segment == TierOf(b).segment
  {
    TierOfRank(a, b);
    TierOfRank(b, a);
    var x, y := TierRank(a), TierRank(b);
    assert TIERS[x].level == TIERS[y].level <==> x == y;
    assert TIERS[x].segment == TIERS[y].segment <==> x == y;
  }

  function ScoreMultiplier(total: int): (m: real)
    ensures 25 <= total <= 100 ==> 1.125 <= m <= 1.5
    ensures 0 <= total ==> 1.0 <= m
  {
    1.0 + (total as real / 100.0) * 0.5
  }

  function BaseClv(income: real, balance: real, investment: real): real {
    income * 0.1 + balance * 0.05 + investment * 0.15
  }

  /** The multiplier scales the whole base sum, not only the investment term. */
  function Clv(income: real, balance: real, investment: real, total: int): (v: real)
    ensures 0 <= total && 0.0 <= BaseClv(income, balance, investment) ==> BaseClv(income, balance, investment) <= v
    ensures 25 <= total <= 100 && 0.0 <= BaseClv(income, balance, investment) ==>
      v <= 1.5 * BaseClv(income, balance, investment)
  {
    BaseClv(income, balance, investment) * ScoreMultiplier(total)
  }

  /**
   * The formula in the script's comment, read with the usual precedence, scales
   * only the investment term. The code's value exceeds that reading whenever
   * income and balance contribute something and the score is positive.
   */
  function CommentClv(income: real, balance: real, investment: real, total: int): real {
    income * 0.1 + balance * 0.05 + investment * 0.15 * ScoreMultiplier(total)
  }

  lemma ClvHigherThanCommentReading(income: real, balance: real, investment: real, total: int)
    requires 0 < total
    requires 0.0 < income * 0.1 + balance * 0.05
    ensures Clv(income, balance, investment, total) > CommentClv(income, balance, investment, total)
  {
    var m := ScoreMultiplier(total);
    var head, tail := income * 0.1 + balance * 0.05, investment * 0.15;
    assert Clv(income, balance, investment, total) == head * m + tail * m;
    assert CommentClv(income, balance, investment, total) == head + tail * m;
    assert head * (m - 1.0) > 0.0;
  }

  /** `f'C{i+1:04d}'`. */
  function CustomerId(i: nat): (id: string)
    ensures |id| >= 5 && id[0] == 'C'
    ensures i < 9999 ==> |id| == 5
  {
    DigitCountBelow(i + 1);
    "C" + Text.ZeroPad(i + 1, 4)
  }

  lemma {:induction false} DigitCountBelow(n: nat)
    ensures n < 10000 ==> |Text.NatToString(n)| <= 4
  {
    if 10 <= n < 10000 {
      DigitCountBelow(n / 10);
    }
  }

  /** Distinct loop indices give distinct customer ids, and the number can be read back. */
  lemma CustomerIdInjective(i: nat, j: nat)
    ensures Text.DigitsValue(CustomerId(i)[1..]) == i + 1
    ensures CustomerId(i) == CustomerId(j) ==> i == j
  {
    assert CustomerId(i)[1..] == Text.ZeroPad(i + 1, 4);
    assert CustomerId(j)[1..] == Text.ZeroPad(j + 1, 4);
    Text.ZeroPadRoundTrip(i + 1, 4);
    Text.ZeroPadRoundTrip(j + 1, 4);
  }

  /** One iteration's random draws. */
  datatype CustomerDraw = CustomerDraw(
    age: int, income: real, education: string,
    balance: real, transactions: int, investment: real)

  /** One row of the customer table. */
  datatype Customer = Customer(
    id: string, age: int, income: real, education: string,
    balance: real, transactions: int, investment: real,
    incomeScore: int, balanceScore: int, educationScore: int, activityScore: int,
    totalScore: int, segment: string, level: string, clv: real)

  predicate WellScored(c: Customer) {
    && IsComponentScore(c.incomeScore) && IsComponentScore(c.balanceScore)
    && IsComponentScore(c.educationScore) && IsComponentScore(c.activityScore)
    && c.totalScore == c.incomeScore + c.balanceScore + c.educationScore + c.activityScore
    && 25 <= c.totalScore <= 100 && c.totalScore % 5 == 0
    && Tier(c.segment, c.level) in TIERS
  }

  /** The dict of scores the loop body appends for iteration `i`. */
  function ScoreCustomer(i: nat, d: CustomerDraw): (c: Customer)
    ensures WellScored(c)
    ensures c.id == CustomerId(i) && c.age == d.age && c.income == d.income && c.balance == d.balance
    ensures c.education == d.education && c.transactions == d.transactions && c.investment == d.investment
    ensures Tier(c.segment, c.level) == TierOf(c.totalScore)
    ensures c.clv == Clv(d.income, d.balance, d.investment, c.totalScore)
  {
    var total := TotalScore(d.income, d.balance, d.education, d.transactions);
    var tier := TierOf(total);
    Customer(
      CustomerId(i), d.age, d.income, d.education, d.balance, d.transactions, d.investment,
      IncomeScore(d.income), BalanceScore(d.balance), EducationScore(d.education),
      ActivityScore(d.transactions), total, tier.segment, tier.level,
      Clv(d.income, d.balance, d.investment, total))
  }

  /** The driver loop: one scored customer per draw, in draw order, with distinct ids. */
  method GenerateCustomers(draws: seq<CustomerDraw>) returns (customers: seq<Customer>)
    requires |draws| == CUSTOMERS
    ensures |customers| == CUSTOMERS
    ensures forall i :: 0 <= i < |customers| ==> customers[i] == ScoreCustomer(i, draws[i])
    ensures forall i, j :: 0 <= i < j < |customers| ==> customers[i].id != customers[j].id
  {
    customers := [];
    for i := 0 to |draws|
      invariant |customers| == i
      invariant forall k :: 0 <= k < i ==> customers[k] == ScoreCustomer(k, draws[k])
    {
      customers := customers + [ScoreCustomer(i, draws[i])];
    }
    forall i, j | 0 <= i < j < |customers|
      ensures customers[i].id != customers[j].id
    {
      CustomerIdInjective(i, j);
    }
  }

  /**
   * `pd.cut(x, bins, labels)` with pandas' defaults: the intervals are
   * right-closed, (bins[k], bins[k+1]], so a value equal to the first bin edge
   * gets no label unless `includeLowest` closes the first interval on the left.
   */
  function Cut(bins: seq<int>, labels: seq<string>, x: int, includeLowest: bool): (r: Option<string>)
    requires |labels| + 1 == |bins|
    ensures r.None? <==> forall k :: !InBin(bins, k, x, includeLowest)
    ensures r.Some? ==> exists k :: InBin(bins, k, x, includeLowest) && r.value == labels[k]
    decreases |labels|
  {
    if labels == [] then None
    else if bins[0] < x <= bins[1] || (includeLowest && x == bins[0]) then
      assert InBin(bins, 0, x, includeLowest);
      Some(labels[0])
    else
      var rest := Cut(bins[1..], labels[1..], x, false);
      InBinTail(bins, x, includeLowest);
      rest
  }

  /** Past the first interval, bin k + 1 of `bins` is bin k of `bins[1..]`, which is open on the left. */
  lemma InBinTail(bins: seq<int>, x: int, includeLowest: bool)
    requires 2 <= |bins| && !InBin(bins, 0, x, includeLowest)
    ensures forall k :: InBin(bins[1..], k, x, false) <==> InBin(bins, k + 1, x, includeLowest)
    ensures forall k :: InBin(bins, k, x, includeLowest) ==> InBin(bins[1..], k - 1, x, false)
  {
  }

  /** With strictly increasing edges the intervals are disjoint, so at most one bin holds `x`. */
  lemma InBinUnique(bins: seq<int>, j: int, k: int, x: int, includeLowest: bool)
    requires StrictlyIncreasing(bins)
    requires InBin(bins, j, x, includeLowest) && InBin(bins, k, x, includeLowest)
    ensures j == k
  {
  }

  predicate InBin(bins: seq<int>, k: int, x: int, includeLowest: bool) {
    0 <= k < |bins| - 1 && (bins[k] < x <= bins[k + 1] || (includeLowest && k == 0 && x == bins[0]))
  }

  predicate StrictlyIncreasing(bins: seq<int>) {
    forall i, j :: 0 <= i < j < |bins| ==> bins[i] < bins[j]
  }

  const AGE_BINS: seq<int> := [25, 35, 45, 55, 70]
  const AGE_LABELS: seq<string> := ["25-35", "36-45", "46-55", "56-70"]

  /** The age group exactly as the script computes it. */
  function AgeGroup(age: int): Option<string> {
    Cut(AGE_BINS, AGE_LABELS, age, false)
  }

  /** The age group with `include_lowest=True`, so that the first group starts at 25 as its label says. */
  function AgeGroupIncludingLowest(age: int): Option<string> {
    Cut(AGE_BINS, AGE_LABELS, age, true)
  }

  /** Every drawable age above 25 gets a group; age 25, which `randint` can draw, gets none. */
  lemma AgeGroupAsWritten(age: int)
    ensures DrawableAge(age) ==> (AgeGroup(age).Some? <==> age != 25)
    ensures AgeGroup(25) == None && DrawableAge(25)
  {
    if 25 < age <= 70 {
      assert InBin(AGE_BINS, if age <= 35 then 0 else if age <= 45 then 1 else if age <= 55 then 2 else 3, age, false);
    }
  }

  /** With the first group closed on the left, every drawable age gets exactly the group whose range contains it. */
  lemma AgeGroupCorrected(age: int)
    requires DrawableAge(age)
    ensures AgeGroupIncludingLowest(age) == Some(AGE_LABELS[(if age <= 35 then 0 else if age <= 45 then 1 else if age <= 55 then 2 else 3)])
  {
    var k := if age <= 35 then 0 else if age <= 45 then 1 else if age <= 55 then 2 else 3;
    assert InBin(AGE_BINS, k, age, true);
    var j :| InBin(AGE_BINS, j, age, true) && AgeGroupIncludingLowest(age).value == AGE_LABELS[j];
    InBinUnique(AGE_BINS, j, k, age, true);
  }
}
