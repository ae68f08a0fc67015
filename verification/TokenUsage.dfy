/** Token totals and cost with the prompt-size tier applied call by call (scripts/token_usage.py). */
module TokenUsage {
  import opened Sequences
  import opened Wrappers

  /** One API response's counts; a missing field reads as zero. */
  datatype Usage = Usage(input: int, output: int, cacheRead: int, cacheCreation: int)

  datatype Model = Sonnet | Opus | Opus46 | Haiku

  /** The row of the price table for a name; unknown names are priced as sonnet. */
  function ModelNamed(name: string): Model {
    match name
    case "opus" => Opus
    case "opus-4-6" => Opus46
    case "haiku" => Haiku
    case _ => Sonnet
  }

  /** Dollars per million tokens, and the tier: calls with a larger prompt are billed at a multiple. */
  datatype Price = Price(input: real, output: real, cacheRead: real, cacheCreation: real, threshold: Option<int>, multiplier: real)

  function PriceOf(m: Model): Price {
    match m
    case Sonnet => Price(3.0, 15.0, 0.3, 3.75, None, 1.0)
    case Opus => Price(15.0, 75.0, 1.5, 18.75, None, 1.0)
    case Opus46 => Price(15.0, 75.0, 1.5, 18.75, Some(200000), 2.0)
    case Haiku => Price(0.8, 4.0, 0.08, 1.0, None, 1.0)
  }

  function PromptSize(u: Usage): int {
    u.input + u.cacheRead + u.cacheCreation
  }

  predicate Breaches(u: Usage, m: Model) {
    PriceOf(m).threshold.Some? && PromptSize(u) > PriceOf(m).threshold.value
  }

  function Multiplier(u: Usage, m: Model): real {
    if Breaches(u, m) then PriceOf(m).multiplier else 1.0
  }

  datatype Costs = Costs(input: real, output: real, cacheRead: real, cacheCreation: real)

  function Total(c: Costs): real {
    c.input + c.output + c.cacheRead + c.cacheCreation
  }

  function Plus(a: Costs, b: Costs): Costs {
    Costs(a.input + b.input, a.output + b.output, a.cacheRead + b.cacheRead, a.cacheCreation + b.cacheCreation)
  }

  const PER_MILLION := 1000000.0

  /** The bill for one call. */
  function CallCost(u: Usage, m: Model): Costs {
    var p, x := PriceOf(m), Multiplier(u, m);
    Costs(u.input as real * (p.input * x) / PER_MILLION, u.output as real * (p.output * x) / PER_MILLION,
          u.cacheRead as real * (p.cacheRead * x) / PER_MILLION, u.cacheCreation as real * (p.cacheCreation * x) / PER_MILLION)
  }

  /** The bill if every prompt token were fresh input. */
  function UncachedCost(u: Usage, m: Model): real {
    var p, x := PriceOf(m), Multiplier(u, m);
    (PromptSize(u) as real * (p.input * x) + u.output as real * (p.output * x)) / PER_MILLION
  }

  datatype Estimate = Estimate(costs: Costs, total: real, breaches: nat, biggest: int, uncached: real, savings: real)

  // ------------------------------------------------------------ the sums

  function CostSum(calls: seq<Usage>, m: Model): Costs {
    if calls == [] then Costs(0.0, 0.0, 0.0, 0.0) else Plus(CostSum(Front(calls), m), CallCost(Last(calls), m))
  }

  function UncachedSum(calls: seq<Usage>, m: Model): real {
    if calls == [] then 0.0 else UncachedSum(Front(calls), m) + UncachedCost(Last(calls), m)
  }

  function BreachCount(calls: seq<Usage>, m: Model): nat {
    if calls == [] then 0 else BreachCount(Front(calls), m) + if Breaches(Last(calls), m) then 1 else 0
  }

  function BiggestPrompt(calls: seq<Usage>): int {
    if calls == [] then 0
    else if |calls| == 1 then PromptSize(calls[0])
    else
      var before := BiggestPrompt(Front(calls));
      if PromptSize(Last(calls)) > before then PromptSize(Last(calls)) else before
  }

  function EstimateOf(calls: seq<Usage>, m: Model): Estimate {
    var costs, uncached := CostSum(calls, m), UncachedSum(calls, m);
    Estimate(costs, Total(costs), BreachCount(calls, m), BiggestPrompt(calls), uncached, uncached - Total(costs))
  }

  function Sum(calls: seq<Usage>): Usage {
    if calls == [] then Usage(0, 0, 0, 0)
    else
      var a, b := Sum(Front(calls)), Last(calls);
      Usage(a.input + b.input, a.output + b.output, a.cacheRead + b.cacheRead, a.cacheCreation + b.cacheCreation)
  }

  // ----------------------------------------------------------- the object

  class Tally {
    var inputTokens: int
    var outputTokens: int
    var cacheReadTokens: int
    var cacheCreationTokens: int
    var messageCount: nat
    var calls: seq<Usage>

    constructor ()
      ensures Valid() && calls == []
    {
      inputTokens, outputTokens, cacheReadTokens, cacheCreationTokens, messageCount, calls := 0, 0, 0, 0, 0, [];
    }

    /** The running totals are those of the calls kept. */
    ghost predicate Valid()
      reads this
    {
      Usage(inputTokens, outputTokens, cacheReadTokens, cacheCreationTokens) == Sum(calls) && messageCount == |calls|
    }

    method AddUsage(u: Usage)
      requires Valid()
      modifies this
      ensures Valid() && calls == old(calls) + [u]
    {
      inputTokens, outputTokens := inputTokens + u.input, outputTokens + u.output;
      cacheReadTokens, cacheCreationTokens := cacheReadTokens + u.cacheRead, cacheCreationTokens + u.cacheCreation;
      messageCount := messageCount + 1;
      calls := calls + [u];
      assert Front(calls) == old(calls);
    }

    method Merge(other: Tally)
      requires Valid() && other.Valid()
      modifies this
      ensures Valid() && calls == old(calls) + old(other.calls)
    {
      SumConcat(calls, other.calls);
      var more := other.calls;
      inputTokens, outputTokens := inputTokens + other.inputTokens, outputTokens + other.outputTokens;
      cacheReadTokens := cacheReadTokens + other.cacheReadTokens;
      cacheCreationTokens := cacheCreationTokens + other.cacheCreationTokens;
      messageCount := messageCount + other.messageCount;
      calls := calls + more;
    }

    method EstimateCost(name: string) returns (e: Estimate)
      ensures e == EstimateOf(calls, ModelNamed(name))
    {
      var m := ModelNamed(name);
      var costs, uncached, breaches, biggest := Costs(0.0, 0.0, 0.0, 0.0), 0.0, 0, 0;
      for i := 0 to |calls|
        invariant costs == CostSum(calls[..i], m) && uncached == UncachedSum(calls[..i], m)
        invariant breaches == BreachCount(calls[..i], m) && biggest == BiggestPrompt(calls[..i])
      {
        assert Front(calls[..i + 1]) == calls[..i] && Last(calls[..i + 1]) == calls[i];
        costs := Plus(costs, CallCost(calls[i], m));
        uncached := uncached + UncachedCost(calls[i], m);
        if Breaches(calls[i], m) {
          breaches := breaches + 1;
        }
        if i == 0 || PromptSize(calls[i]) > biggest {
          biggest := PromptSize(calls[i]);
        }
      }
      assert calls[..|calls|] == calls;
      e := Estimate(costs, Total(costs), breaches, biggest, uncached, uncached - Total(costs));
    }
  }

  lemma {:induction false} SumOfOne(u: Usage)
    ensures Sum([]) == Usage(0, 0, 0, 0) && Sum([u]) == u
  {
    assert Front([u]) == [];
  }

  lemma {:induction false} SumConcat(a: seq<Usage>, b: seq<Usage>)
    ensures var x, y, both := Sum(a), Sum(b), Sum(a + b);
            both == Usage(x.input + y.input, x.output + y.output, x.cacheRead + y.cacheRead, x.cacheCreation + y.cacheCreation)
  {
    if b == [] {
      assert a + b == a;
    } else {
      assert Front(a + b) == a + Front(b);
      SumConcat(a, Front(b));
    }
  }

  // ---------------------------------------------------------- properties

  /** What tokens cost under the four names, in dollars per million, and what everything else costs. */
  lemma DollarsPerMillion(u: Usage, name: string)
    requires name != "opus-4-6" || u.input + u.cacheRead + u.cacheCreation <= 200000
    ensures var c := CallCost(u, ModelNamed(name));
            if name == "opus" || name == "opus-4-6" then
              && c.input * 1000000.0 == 15.0 * u.input as real && c.output * 1000000.0 == 75.0 * u.output as real
              && c.cacheRead * 1000000.0 == 1.5 * u.cacheRead as real && c.cacheCreation * 1000000.0 == 18.75 * u.cacheCreation as real
            else if name == "haiku" then
              && c.input * 1000000.0 == 0.8 * u.input as real && c.output * 1000000.0 == 4.0 * u.output as real
              && c.cacheRead * 1000000.0 == 0.08 * u.cacheRead as real && c.cacheCreation * 1000000.0 == 1.0 * u.cacheCreation as real
            else
              && c.input * 1000000.0 == 3.0 * u.input as real && c.output * 1000000.0 == 15.0 * u.output as real
              && c.cacheRead * 1000000.0 == 0.3 * u.cacheRead as real && c.cacheCreation * 1000000.0 == 3.75 * u.cacheCreation as real
    ensures !Breaches(u, ModelNamed(name))
  {
  }

  /** One name has a tier: over 200,000 prompt tokens a call costs twice as much, with caching and without. */
  lemma DollarsOverTheTier(u: Usage, name: string)
    requires u.input + u.cacheRead + u.cacheCreation > 200000
    ensures Breaches(u, ModelNamed(name)) <==> name == "opus-4-6"
    ensures var c := CallCost(u, ModelNamed("opus-4-6"));
            && c.input * 1000000.0 == 30.0 * u.input as real && c.output * 1000000.0 == 150.0 * u.output as real
            && c.cacheRead * 1000000.0 == 3.0 * u.cacheRead as real && c.cacheCreation * 1000000.0 == 37.5 * u.cacheCreation as real
  {
  }

  /** Without caching every prompt token costs what input costs. */
  lemma UncachedDollars(u: Usage, name: string)
    ensures UncachedCost(u, ModelNamed(name))
            == var all := u.(input := u.input + u.cacheRead + u.cacheCreation, cacheRead := 0, cacheCreation := 0);
               CallCost(all, ModelNamed(name)).input + CallCost(all, ModelNamed(name)).output
  {
    var all := u.(input := u.input + u.cacheRead + u.cacheCreation, cacheRead := 0, cacheCreation := 0);
    assert PromptSize(all) == PromptSize(u);
    match ModelNamed(name)
    case Sonnet =>
    case Opus =>
    case Opus46 =>
    case Haiku =>
  }

  /** The sums over no call and over one. */
  lemma {:induction false} SumsOfOneCall(u: Usage, m: Model)
    ensures CostSum([], m) == Costs(0.0, 0.0, 0.0, 0.0) && UncachedSum([], m) == 0.0 && BreachCount([], m) == 0
    ensures CostSum([u], m) == CallCost(u, m)
    ensures UncachedSum([u], m) == UncachedCost(u, m)
    ensures BreachCount([u], m) == if Breaches(u, m) then 1 else 0
  {
    assert Front([u]) == [] && Last([u]) == u;
    AddNothing(CallCost(u, m), UncachedCost(u, m));
  }

  lemma AddNothing(c: Costs, x: real)
    ensures Plus(Costs(0.0, 0.0, 0.0, 0.0), c) == c && 0.0 + x == x
  {
  }

  lemma EstimateParts(calls: seq<Usage>, m: Model)
    ensures var e := EstimateOf(calls, m);
            && e.total == e.costs.input + e.costs.output + e.costs.cacheRead + e.costs.cacheCreation
            && e.savings == e.uncached - e.total
  {
  }

  lemma PlusIsFieldByField(a: Costs, b: Costs)
    ensures Plus(a, b).input == a.input + b.input && Plus(a, b).output == a.output + b.output
    ensures Plus(a, b).cacheRead == a.cacheRead + b.cacheRead && Plus(a, b).cacheCreation == a.cacheCreation + b.cacheCreation
  {
  }

  /** Merging tallies adds their bills: no tier changes, since each call keeps its own. */
  lemma {:induction false} CostIsAdditive(a: seq<Usage>, b: seq<Usage>, m: Model)
    ensures CostSum(a + b, m) == Plus(CostSum(a, m), CostSum(b, m))
    ensures UncachedSum(a + b, m) == UncachedSum(a, m) + UncachedSum(b, m)
    ensures BreachCount(a + b, m) == BreachCount(a, m) + BreachCount(b, m)
  {
    if b == [] {
      assert a + b == a;
    } else {
      assert Front(a + b) == a + Front(b);
      CostIsAdditive(a, Front(b), m);
    }
  }

  lemma {:induction false} BiggestIsBiggest(calls: seq<Usage>)
    ensures forall u :: u in calls ==> PromptSize(u) <= BiggestPrompt(calls)
    ensures calls != [] ==> exists u :: u in calls && PromptSize(u) == BiggestPrompt(calls)
  {
    if calls != [] {
      var front, last := Front(calls), Last(calls);
      assert calls == front + [last] && last in calls;
      BiggestIsBiggest(front);
      if PromptSize(last) != BiggestPrompt(calls) {
        var u :| u in front && PromptSize(u) == BiggestPrompt(front);
        assert u in calls;
      }
    }
  }

  lemma {:induction false} SomeBreach(calls: seq<Usage>, m: Model)
    ensures BreachCount(calls, m) > 0 <==> exists u :: u in calls && Breaches(u, m)
  {
    if calls != [] {
      assert calls == Front(calls) + [Last(calls)];
      SomeBreach(Front(calls), m);
    }
  }

  /** Some call was billed at the higher tier exactly if the biggest prompt is over the threshold. */
  lemma {:induction false} BreachesShowInTheBiggestPrompt(calls: seq<Usage>, m: Model)
    ensures BreachCount(calls, m) > 0 <==>
              PriceOf(m).threshold.Some? && BiggestPrompt(calls) > PriceOf(m).threshold.value
  {
    SomeBreach(calls, m);
    BiggestIsBiggest(calls);
    if PriceOf(m).threshold.Some? && calls != [] {
      var u :| u in calls && PromptSize(u) == BiggestPrompt(calls);
      assert Breaches(u, m) <==> BiggestPrompt(calls) > PriceOf(m).threshold.value;
    }
  }

  predicate NonNegative(u: Usage) {
    u.input >= 0 && u.output >= 0 && u.cacheRead >= 0 && u.cacheCreation >= 0
  }

  /** A call's bill without the tier. */
  function Base(u: Usage, m: Model): real {
    var p := PriceOf(m);
    (u.input as real * p.input + u.output as real * p.output
     + u.cacheRead as real * p.cacheRead + u.cacheCreation as real * p.cacheCreation) / PER_MILLION
  }

  lemma TotalIsBase(u: Usage, m: Model)
    ensures Bill(u, m) == if Breaches(u, m) then 2.0 * Base(u, m) else Base(u, m)
    ensures NonNegative(u) ==> Base(u, m) >= 0.0
  {
    match m
    case Sonnet =>
    case Opus =>
    case Opus46 =>
    case Haiku =>
  }

  /** One call's bill in all. */
  function Bill(u: Usage, m: Model): real {
    Total(CallCost(u, m))
  }

  function Bills(m: Model): Usage -> real {
    (u: Usage) => Bill(u, m)
  }

  function Bases(m: Model): Usage -> real {
    (u: Usage) => Base(u, m)
  }

  function UncachedBills(m: Model): Usage -> real {
    (u: Usage) => UncachedCost(u, m)
  }

  function BillSum(calls: seq<Usage>, bill: Usage -> real): real {
    if calls == [] then 0.0 else BillSum(Front(calls), bill) + bill(Last(calls))
  }

  lemma {:induction false} TotalIsBillSum(calls: seq<Usage>, m: Model)
    ensures Total(CostSum(calls, m)) == BillSum(calls, Bills(m))
  {
    if calls != [] {
      TotalIsBillSum(Front(calls), m);
      TotalOfPlus(CostSum(Front(calls), m), CallCost(Last(calls), m));
    }
  }

  lemma TotalOfPlus(a: Costs, b: Costs)
    ensures Total(Plus(a, b)) == Total(a) + Total(b)
  {
  }

  lemma {:induction false} BaseOfSum(calls: seq<Usage>, m: Model)
    ensures Base(Sum(calls), m) == BillSum(calls, Bases(m))
  {
    if calls != [] {
      BaseOfSum(Front(calls), m);
      BaseAdds(Sum(Front(calls)), Last(calls), m);
    } else {
      assert Base(Usage(0, 0, 0, 0), m) == 0.0;
    }
  }

  lemma BaseAdds(a: Usage, b: Usage, m: Model)
    ensures Base(Usage(a.input + b.input, a.output + b.output, a.cacheRead + b.cacheRead, a.cacheCreation + b.cacheCreation), m)
            == Base(a, m) + Base(b, m)
  {
    match m
    case Sonnet =>
    case Opus =>
    case Opus46 =>
    case Haiku =>
  }

  lemma {:induction false} PromptsAddUp(calls: seq<Usage>, u: Usage)
    requires forall v :: v in calls ==> NonNegative(v)
    ensures NonNegative(Sum(calls)) && (u in calls ==> PromptSize(u) <= PromptSize(Sum(calls)))
  {
    if calls != [] {
      assert calls == Front(calls) + [Last(calls)];
      assert forall v :: v in Front(calls) ==> v in calls;
      assert NonNegative(Last(calls));
      PromptsAddUp(Front(calls), u);
    }
  }

  /** A call costs its base or twice that; and its base, if not even the totals would breach the tier. */
  lemma {:induction false} CallAgainstBase(calls: seq<Usage>, m: Model, u: Usage)
    requires u in calls && forall v :: v in calls ==> NonNegative(v)
    ensures Base(u, m) <= Bill(u, m) <= 2.0 * Base(u, m)
    ensures !Breaches(Sum(calls), m) ==> Bill(u, m) == Base(u, m)
  {
    TotalIsBase(u, m);
    PromptsAddUp(calls, u);
  }

  lemma {:induction false} CompareWithBase(calls: seq<Usage>, m: Model, bill: Usage -> real, base: Usage -> real)
    requires forall u :: u in calls ==> NonNegative(u)
    requires bill == Bills(m) && base == Bases(m)
    ensures BillSum(calls, base) <= BillSum(calls, bill) <= 2.0 * BillSum(calls, base)
    ensures !Breaches(Sum(calls), m) ==> BillSum(calls, bill) == BillSum(calls, base)
  {
    forall u | u in calls
      ensures base(u) <= bill(u) <= 2.0 * base(u) && (!Breaches(Sum(calls), m) ==> bill(u) == base(u))
    {
      CallAgainstBase(calls, m, u);
    }
    TwiceAtMost(calls, bill, base);
    if !Breaches(Sum(calls), m) {
      SameBills(calls, bill, base);
    }
  }

  /** Bounds that hold call by call hold of the sums. */
  lemma {:induction false} TwiceAtMost(calls: seq<Usage>, bill: Usage -> real, base: Usage -> real)
    requires forall u :: u in calls ==> base(u) <= bill(u) <= 2.0 * base(u)
    ensures BillSum(calls, base) <= BillSum(calls, bill) <= 2.0 * BillSum(calls, base)
  {
    if calls != [] {
      assert calls == Front(calls) + [Last(calls)] && Last(calls) in calls;
      TwiceAtMost(Front(calls), bill, base);
    }
  }

  lemma {:induction false} SameBills(calls: seq<Usage>, bill: Usage -> real, base: Usage -> real)
    requires forall u :: u in calls ==> bill(u) == base(u)
    ensures BillSum(calls, bill) == BillSum(calls, base)
  {
    if calls != [] {
      assert calls == Front(calls) + [Last(calls)];
      SameBills(Front(calls), bill, base);
    }
  }

  /** Billing call by call never costs more than billing the totals as one call, and at least half of that. */
  lemma {:induction false} PerCallAgainstOneCall(calls: seq<Usage>, m: Model)
    requires forall u :: u in calls ==> NonNegative(u)
    ensures Total(CostSum(calls, m)) <= Bill(Sum(calls), m) <= 2.0 * Total(CostSum(calls, m))
  {
    var total, base, one := BillSum(calls, Bills(m)), BillSum(calls, Bases(m)), Bill(Sum(calls), m);
    CompareWithBase(calls, m, Bills(m), Bases(m));
    TotalIsBillSum(calls, m);
    OneCallBill(calls, m);
    Conclude(total, base, one, Breaches(Sum(calls), m));
  }

  lemma Conclude(total: real, base: real, one: real, breaches: bool)
    requires base <= total <= 2.0 * base && (!breaches ==> total == base)
    requires one == if breaches then 2.0 * base else base
    ensures total <= one <= 2.0 * total
  {
  }

  lemma {:induction false} OneCallBill(calls: seq<Usage>, m: Model)
    ensures Bill(Sum(calls), m) == if Breaches(Sum(calls), m) then 2.0 * BillSum(calls, Bases(m)) else BillSum(calls, Bases(m))
  {
    BaseOfSum(calls, m);
    TotalIsBase(Sum(calls), m);
  }

  lemma CallAgainstUncached(u: Usage, m: Model)
    requires NonNegative(u)
    ensures 0.1 * UncachedCost(u, m) <= Bill(u, m) <= 1.25 * UncachedCost(u, m)
  {
    match m
    case Sonnet =>
    case Opus =>
    case Opus46 =>
    case Haiku =>
  }

  lemma {:induction false} UncachedIsBillSum(calls: seq<Usage>, m: Model)
    ensures UncachedSum(calls, m) == BillSum(calls, UncachedBills(m))
  {
    if calls != [] {
      UncachedIsBillSum(Front(calls), m);
    }
  }

  lemma {:induction false} TenthToFiveQuarters(calls: seq<Usage>, bill: Usage -> real, other: Usage -> real)
    requires forall u :: u in calls ==> 0.1 * other(u) <= bill(u) <= 1.25 * other(u)
    ensures 0.1 * BillSum(calls, other) <= BillSum(calls, bill) <= 1.25 * BillSum(calls, other)
  {
    if calls != [] {
      assert calls == Front(calls) + [Last(calls)] && Last(calls) in calls;
      TenthToFiveQuarters(Front(calls), bill, other);
    }
  }

  /** With caching the bill is between a tenth and five quarters of the bill without. */
  lemma {:induction false} BillAgainstUncached(calls: seq<Usage>, m: Model)
    requires forall u :: u in calls ==> NonNegative(u)
    ensures 0.1 * UncachedSum(calls, m) <= Total(CostSum(calls, m)) <= 1.25 * UncachedSum(calls, m)
  {
    forall u | u in calls ensures 0.1 * UncachedBills(m)(u) <= Bills(m)(u) <= 1.25 * UncachedBills(m)(u) {
      CallAgainstUncached(u, m);
    }
    TenthToFiveQuarters(calls, Bills(m), UncachedBills(m));
    TotalIsBillSum(calls, m);
    UncachedIsBillSum(calls, m);
  }

  /** Caching a single call pays exactly if 18 times the tokens read reach 5 times the tokens written. */
  lemma CachingPaysExactlyWhen(u: Usage, m: Model)
    ensures Bill(u, m) <= UncachedCost(u, m) <==> 5 * u.cacheCreation <= 18 * u.cacheRead
  {
    match m
    case Sonnet =>
    case Opus =>
    case Opus46 =>
    case Haiku =>
  }
}
