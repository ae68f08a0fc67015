/** Costs grouped by day, week or model, and merged again (scripts/cost_by_model.py). */
module CostByModel {
  import opened Sequences
  import opened Wrappers
  import TokenUsage

  /** Model names, and the keys of groupings. */
  datatype Name = Name(text: string)

  /** One billed call; `cost` is the price that the agent itself recorded, if it did. */
  datatype Call = Call(timestamp: string, modelName: Name, usage: TokenUsage.Usage, cost: Option<real>)

  /** Which price row a raw model name is billed by. */
  type Tiers = Name -> TokenUsage.Model

  /** `call_cost`: the recorded price, or else the price row's. */
  function CostOf(c: Call, tiers: Tiers): real {
    match c.cost
    case Some(cost) => cost
    case None => TokenUsage.Total(TokenUsage.CallCost(c.usage, tiers(c.modelName)))
  }

  /** What is charged for a call; `call_cost` under given tiers is one such bill. */
  type Bill = Call -> real

  function BillUnder(tiers: Tiers): Bill {
    (c: Call) => CostOf(c, tiers)
  }

  /** The value of a bucket; `models` counts the calls of each model. */
  datatype Totals = Totals(input: int, output: int, cacheRead: int, cacheCreation: int, count: nat, cost: real, models: multiset<Name>)

  const ZERO := Totals(0, 0, 0, 0, 0, 0.0, multiset{})

  function One(c: Call, bill: Bill): Totals {
    Totals(c.usage.input, c.usage.output, c.usage.cacheRead, c.usage.cacheCreation, 1, bill(c), multiset{c.modelName})
  }

  function Plus(a: Totals, b: Totals): Totals {
    Totals(a.input + b.input, a.output + b.output, a.cacheRead + b.cacheRead, a.cacheCreation + b.cacheCreation,
           a.count + b.count, a.cost + b.cost, a.models + b.models)
  }

  lemma PlusLaws(a: Totals, b: Totals, c: Totals)
    ensures Plus(a, b) == Plus(b, a) && Plus(Plus(a, b), c) == Plus(a, Plus(b, c)) && Plus(a, ZERO) == a == Plus(ZERO, a)
  {
  }

  /** The calls that a grouping puts under one key; a grouping may leave calls out. */
  function Under(calls: seq<Call>, keyOf: Call -> Option<Name>, key: Name): seq<Call> {
    if calls == [] then []
    else Under(Front(calls), keyOf, key) + if keyOf(Last(calls)) == Some(key) then [Last(calls)] else []
  }

  function Grouped(calls: seq<Call>, keyOf: Call -> Option<Name>): seq<Call> {
    if calls == [] then []
    else Grouped(Front(calls), keyOf) + if keyOf(Last(calls)).Some? then [Last(calls)] else []
  }

  function TotalOf(calls: seq<Call>, bill: Bill): Totals {
    if calls == [] then ZERO else Plus(TotalOf(Front(calls), bill), One(Last(calls), bill))
  }

  function SumOver(keys: seq<Name>, calls: seq<Call>, keyOf: Call -> Option<Name>, bill: Bill): Totals {
    if keys == [] then ZERO
    else Plus(SumOver(Front(keys), calls, keyOf, bill), TotalOf(Under(calls, keyOf, Last(keys)), bill))
  }

  predicate Distinct(keys: seq<Name>) {
    forall i, j :: 0 <= i < j < |keys| ==> keys[i] != keys[j]
  }

  // ------------------------------------------------------------ the objects

  class Bucket {
    var inputTokens: int
    var outputTokens: int
    var cacheReadTokens: int
    var cacheCreationTokens: int
    var messageCount: nat
    var cost: real
    var modelCounts: multiset<Name>

    constructor ()
      ensures Value() == ZERO
    {
      inputTokens, outputTokens, cacheReadTokens, cacheCreationTokens := 0, 0, 0, 0;
      messageCount, cost, modelCounts := 0, 0.0, multiset{};
    }

    function Value(): Totals
      reads this
    {
      Totals(inputTokens, outputTokens, cacheReadTokens, cacheCreationTokens, messageCount, cost, modelCounts)
    }

    method Add(c: Call, bill: Bill)
      modifies this
      ensures Value() == Plus(old(Value()), One(c, bill))
    {
      inputTokens, outputTokens, cacheReadTokens, cacheCreationTokens, messageCount, cost, modelCounts :=
        inputTokens + c.usage.input, outputTokens + c.usage.output,
        cacheReadTokens + c.usage.cacheRead, cacheCreationTokens + c.usage.cacheCreation,
        messageCount + 1, cost + bill(c), modelCounts + multiset{c.modelName};
    }

    method Merge(other: Bucket)
      modifies this
      ensures Value() == Plus(old(Value()), old(other.Value()))
    {
      inputTokens, outputTokens, cacheReadTokens, cacheCreationTokens, messageCount, cost, modelCounts :=
        inputTokens + other.inputTokens, outputTokens + other.outputTokens,
        cacheReadTokens + other.cacheReadTokens, cacheCreationTokens + other.cacheCreationTokens,
        messageCount + other.messageCount, cost + other.cost, modelCounts + other.modelCounts;
    }
  }

  method AggregateTotal(calls: seq<Call>, bill: Bill) returns (b: Bucket)
    ensures fresh(b) && b.Value() == TotalOf(calls, bill)
  {
    b := new Bucket();
    for i := 0 to |calls|
      invariant fresh(b) && b.Value() == TotalOf(calls[..i], bill)
    {
      assert Front(calls[..i + 1]) == calls[..i] && Last(calls[..i + 1]) == calls[i];
      b.Add(calls[i], bill);
    }
    assert calls[..|calls|] == calls;
  }

  /** The total that belongs under a key; None if no call has it. */
  function Expected(calls: seq<Call>, keyOf: Call -> Option<Name>, key: Name, bill: Bill): Option<Totals> {
    if Under(calls, keyOf, key) == [] then None else Some(TotalOf(Under(calls, keyOf, key), bill))
  }

  lemma ExpectedMore(calls: seq<Call>, c: Call, keyOf: Call -> Option<Name>, key: Name, bill: Bill)
    ensures Expected(calls + [c], keyOf, key, bill)
            == if keyOf(c) == Some(key) then Some(Plus(Expected(calls, keyOf, key, bill).GetOr(ZERO), One(c, bill)))
               else Expected(calls, keyOf, key, bill)
  {
    UnderMore(calls, c, keyOf, key, bill);
  }

  lemma {:induction false} UnderMore(calls: seq<Call>, c: Call, keyOf: Call -> Option<Name>, key: Name, bill: Bill)
    ensures Under(calls + [c], keyOf, key) == Under(calls, keyOf, key) + if keyOf(c) == Some(key) then [c] else []
    ensures TotalOf(Under(calls + [c], keyOf, key), bill)
            == if keyOf(c) == Some(key) then Plus(TotalOf(Under(calls, keyOf, key), bill), One(c, bill))
               else TotalOf(Under(calls, keyOf, key), bill)
  {
    assert Front(calls + [c]) == calls;
    var under := Under(calls, keyOf, key);
    assert Front(under + [c]) == under && under + [] == under;
  }

  /** A dictionary of buckets. */
  class Table {
    var buckets: map<Name, Bucket>

    constructor ()
      ensures Separate() && buckets == map[]
    {
      buckets := map[];
    }

    ghost predicate Separate()
      reads this
    {
      forall p, q :: p in buckets && q in buckets && p != q ==> buckets[p] != buckets[q]
    }

    ghost function At(key: Name): Option<Totals>
      reads this, buckets.Values
    {
      if key in buckets then Some(buckets[key].Value()) else None
    }

    /** The loop's body: find or make the bucket of the key, and add the call to it. */
    method AddUnder(key: Name, c: Call, bill: Bill)
      requires Separate()
      modifies this, buckets.Values
      ensures Separate() && fresh(buckets.Values - old(buckets.Values))
      ensures At(key) == Some(Plus(old(At(key)).GetOr(ZERO), One(c, bill)))
      ensures forall k :: k != key ==> At(k) == old(At(k))
    {
      if key !in buckets {
        var b := new Bucket();
        buckets := buckets[key := b];
      }
      var bucket := buckets[key];
      bucket.Add(c, bill);
    }
  }

  ghost predicate Groups(t: Table, calls: seq<Call>, keyOf: Call -> Option<Name>, bill: Bill)
    reads t, t.buckets.Values
  {
    forall k {:trigger t.At(k)} :: t.At(k) == Expected(calls, keyOf, k, bill)
  }

  /** One call, grouped by `keyOf`; a call without a key is skipped. */
  method Group(t: Table, c: Call, bill: Bill, ghost past: seq<Call>, keyOf: Call -> Option<Name>)
    requires t.Separate() && Groups(t, past, keyOf, bill)
    modifies t, t.buckets.Values
    ensures t.Separate() && fresh(t.buckets.Values - old(t.buckets.Values)) && Groups(t, past + [c], keyOf, bill)
  {
    var key := keyOf(c);
    if key.Some? {
      t.AddUnder(key.value, c, bill);
    }
    forall k ensures t.At(k) == Expected(past + [c], keyOf, k, bill) {
      assert old(t.At(k)) == Expected(past, keyOf, k, bill);
      ExpectedMore(past, c, keyOf, k, bill);
    }
  }

  /** `aggregate_by_day`, `_week` and `_model`: one loop, three keys. */
  method AggregateBy(calls: seq<Call>, keyOf: Call -> Option<Name>, bill: Bill) returns (t: Table)
    ensures fresh(t) && fresh(t.buckets.Values) && t.Separate() && Groups(t, calls, keyOf, bill)
  {
    t := new Table();
    for i := 0 to |calls|
      invariant fresh(t) && fresh(t.buckets.Values) && t.Separate() && Groups(t, calls[..i], keyOf, bill)
    {
      assert calls[..i + 1] == calls[..i] + [calls[i]];
      Group(t, calls[i], bill, calls[..i], keyOf);
    }
    assert calls[..|calls|] == calls;
  }

  // ---------------------------------------------------------- conservation

  ghost predicate Covers(keys: seq<Name>, calls: seq<Call>, keyOf: Call -> Option<Name>) {
    forall c :: c in calls && keyOf(c).Some? ==> keyOf(c).value in keys
  }

  /** One more call adds itself to the sum over any keys that include its own, and nothing to a sum that does not. */
  lemma {:induction false} SumOverMore(keys: seq<Name>, calls: seq<Call>, c: Call, keyOf: Call -> Option<Name>, bill: Bill)
    requires Distinct(keys)
    ensures SumOver(keys, calls + [c], keyOf, bill)
            == if keyOf(c).Some? && keyOf(c).value in keys then Plus(SumOver(keys, calls, keyOf, bill), One(c, bill))
               else SumOver(keys, calls, keyOf, bill)
  {
    if keys != [] {
      var front, last := Front(keys), Last(keys);
      assert keys == front + [last] && (forall k :: k in front ==> k != last);
      SumOverMore(front, calls, c, keyOf, bill);
      UnderMore(calls, c, keyOf, last, bill);
      var s, u, one := SumOver(front, calls, keyOf, bill), TotalOf(Under(calls, keyOf, last), bill), One(c, bill);
      PlusLaws(s, one, u);
      PlusLaws(s, u, one);
      PlusLaws(one, u, s);
    }
  }

  lemma {:induction false} SumOverNothing(keys: seq<Name>, calls: seq<Call>, keyOf: Call -> Option<Name>, bill: Bill)
    requires calls == []
    ensures SumOver(keys, calls, keyOf, bill) == ZERO
  {
    if keys != [] {
      SumOverNothing(Front(keys), calls, keyOf, bill);
      var none := TotalOf(Under(calls, keyOf, Last(keys)), bill);
      assert none == ZERO;
      PlusLaws(none, none, none);
    }
  }

  /** Merging the buckets of any grouping, in any order, gives the total of the calls that it groups, on every field. */
  lemma {:induction false} GroupingConserves(keys: seq<Name>, calls: seq<Call>, keyOf: Call -> Option<Name>, bill: Bill)
    requires Distinct(keys) && Covers(keys, calls, keyOf)
    ensures SumOver(keys, calls, keyOf, bill) == TotalOf(Grouped(calls, keyOf), bill)
  {
    if calls == [] {
      SumOverNothing(keys, calls, keyOf, bill);
    } else {
      var front, c := Front(calls), Last(calls);
      assert calls == front + [c];
      GroupingConserves(keys, front, keyOf, bill);
      SumOverMore(keys, front, c, keyOf, bill);
      assert c in calls;
      var grouped := Grouped(front, keyOf);
      assert Front(grouped + [c]) == grouped && grouped + [] == grouped;
    }
  }

  lemma {:induction false} EverythingIsGrouped(calls: seq<Call>, keyOf: Call -> Option<Name>)
    requires forall c :: c in calls ==> keyOf(c).Some?
    ensures Grouped(calls, keyOf) == calls
  {
    if calls != [] {
      assert calls == Front(calls) + [Last(calls)];
      EverythingIsGrouped(Front(calls), keyOf);
    }
  }

  lemma {:induction false} UnderHasKey(calls: seq<Call>, keyOf: Call -> Option<Name>, c: Call)
    requires c in calls && keyOf(c).Some?
    ensures Under(calls, keyOf, keyOf(c).value) != []
  {
    assert calls == Front(calls) + [Last(calls)];
    if keyOf(Last(calls)) != keyOf(c) {
      UnderHasKey(Front(calls), keyOf, c);
    }
  }

  lemma {:induction false} SumOverOneMoreKey(keys: seq<Name>, key: Name, calls: seq<Call>, keyOf: Call -> Option<Name>, bill: Bill)
    ensures SumOver(keys + [key], calls, keyOf, bill) == Plus(SumOver(keys, calls, keyOf, bill), TotalOf(Under(calls, keyOf, key), bill))
  {
    assert Front(keys + [key]) == keys;
  }

  /** A dictionary's keys in whatever order it holds them. */
  method KeysOf(t: Table) returns (keys: seq<Name>)
    ensures Lists(keys, t.buckets.Keys)
  {
    keys := [];
    var rest := t.buckets.Keys;
    while rest != {}
      invariant rest <= t.buckets.Keys && Lists(keys, t.buckets.Keys - rest)
      decreases rest
    {
      var key := Choose(rest);
      ListsMore(keys, t.buckets.Keys - rest, key);
      assert t.buckets.Keys - rest + {key} == t.buckets.Keys - (rest - {key});
      rest := rest - {key};
      keys := keys + [key];
    }
    assert t.buckets.Keys - rest == t.buckets.Keys;
  }

  method MergeNext(b: Bucket, total: Bucket, ghost key: Name, ghost done: seq<Name>, ghost calls: seq<Call>, ghost keyOf: Call -> Option<Name>, ghost bill: Bill)
    requires Some(b.Value()) == Expected(calls, keyOf, key, bill) && b != total
    requires total.Value() == SumOver(done, calls, keyOf, bill)
    modifies total
    ensures total.Value() == SumOver(done + [key], calls, keyOf, bill)
  {
    SumOverOneMoreKey(done, key, calls, keyOf, bill);
    total.Merge(b);
  }

  /** The total row under a table of buckets: all of them merged. */
  method MergeAll(t: Table, ghost calls: seq<Call>, ghost keyOf: Call -> Option<Name>, ghost bill: Bill) returns (total: Bucket)
    requires Groups(t, calls, keyOf, bill)
    ensures fresh(total) && total.Value() == TotalOf(Grouped(calls, keyOf), bill)
  {
    var keys := KeysOf(t);
    total := MergeKeys(t, keys, calls, keyOf, bill);
    GroupsCovers(t, keys, calls, keyOf, bill);
    GroupingConserves(keys, calls, keyOf, bill);
  }

  method MergeKeys(t: Table, keys: seq<Name>, ghost calls: seq<Call>, ghost keyOf: Call -> Option<Name>, ghost bill: Bill) returns (total: Bucket)
    requires Groups(t, calls, keyOf, bill) && forall k :: k in keys ==> k in t.buckets
    ensures fresh(total) && total.Value() == SumOver(keys, calls, keyOf, bill)
  {
    total := new Bucket();
    for i := 0 to |keys|
      invariant fresh(total) && total.Value() == SumOver(keys[..i], calls, keyOf, bill)
    {
      var key := keys[i];
      assert key in keys;
      TakeOneMore(keys, i);
      var b := t.buckets[key];
      assert Some(b.Value()) == Expected(calls, keyOf, key, bill) by {
        assert old(t.At(key)) == Expected(calls, keyOf, key, bill);
      }
      MergeNext(b, total, key, keys[..i], calls, keyOf, bill);
    }
    TakeAll(keys);
  }

  lemma {:induction false} GroupsCovers(t: Table, keys: seq<Name>, calls: seq<Call>, keyOf: Call -> Option<Name>, bill: Bill)
    requires Groups(t, calls, keyOf, bill) && Lists(keys, t.buckets.Keys)
    ensures Covers(keys, calls, keyOf)
  {
    forall c | c in calls && keyOf(c).Some? ensures keyOf(c).value in keys {
      UnderHasKey(calls, keyOf, c);
      assert t.At(keyOf(c).value) == Expected(calls, keyOf, keyOf(c).value, bill);
    }
  }

  ghost predicate Lists(keys: seq<Name>, s: set<Name>) {
    Distinct(keys) && forall k :: k in keys <==> k in s
  }

  lemma ListsMore(keys: seq<Name>, s: set<Name>, key: Name)
    requires Lists(keys, s) && key !in s
    ensures Lists(keys + [key], s + {key})
  {
    forall k ensures k in keys + [key] <==> k in s + {key} {
    }
  }

  /** The three groupings: by date, by Monday where the date parses, and by price row. */
  function Date(c: Call): Name {
    Name(if |c.timestamp| <= 10 then c.timestamp else c.timestamp[..10])
  }

  function Day(c: Call): Option<Name> {
    Some(Date(c))
  }

  function Week(mondayOf: Name -> Option<Name>): Call -> Option<Name> {
    (c: Call) => mondayOf(Date(c))
  }

  function Row(m: TokenUsage.Model): Name {
    match m
    case Sonnet => Name("sonnet")
    case Opus => Name("opus")
    case Opus46 => Name("opus-4-6")
    case Haiku => Name("haiku")
  }

  function ByModel(tiers: Tiers): Call -> Option<Name> {
    (c: Call) => Some(Row(tiers(c.modelName)))
  }

  /** Days and models lose nothing; weeks lose exactly the calls whose date does not parse. */
  lemma {:induction false} AllGroupingsConserve(keys: seq<Name>, calls: seq<Call>, bill: Bill, tiers: Tiers, mondayOf: Name -> Option<Name>)
    requires Distinct(keys)
    ensures Covers(keys, calls, Day) ==> SumOver(keys, calls, Day, bill) == TotalOf(calls, bill)
    ensures Covers(keys, calls, ByModel(tiers)) ==> SumOver(keys, calls, ByModel(tiers), bill) == TotalOf(calls, bill)
    ensures Covers(keys, calls, Week(mondayOf)) ==>
              SumOver(keys, calls, Week(mondayOf), bill) == TotalOf(Grouped(calls, Week(mondayOf)), bill)
  {
    EverythingIsGrouped(calls, Day);
    EverythingIsGrouped(calls, ByModel(tiers));
    if Covers(keys, calls, Day) {
      GroupingConserves(keys, calls, Day, bill);
    }
    if Covers(keys, calls, ByModel(tiers)) {
      GroupingConserves(keys, calls, ByModel(tiers), bill);
    }
    if Covers(keys, calls, Week(mondayOf)) {
      GroupingConserves(keys, calls, Week(mondayOf), bill);
    }
  }

  // ------------------------------------------- agreement with the other script

  function Usages(calls: seq<Call>): seq<TokenUsage.Usage> {
    seq(|calls|, i requires 0 <= i < |calls| => calls[i].usage)
  }

  /** The calls without a recorded price, and what the others record in all. */
  function Unpriced(calls: seq<Call>): seq<Call> {
    if calls == [] then [] else Unpriced(Front(calls)) + if Last(calls).cost.None? then [Last(calls)] else []
  }

  function Recorded(calls: seq<Call>): real {
    if calls == [] then 0.0 else Recorded(Front(calls)) + Last(calls).cost.GetOr(0.0)
  }

  /** Calls that cost what they record, or else a price by usage, cost what is recorded and the prices of the others. */
  lemma {:induction false} RecordedAndPriced(calls: seq<Call>, bill: Bill, price: TokenUsage.Usage -> real)
    requires forall c :: c in calls ==> bill(c) == if c.cost.Some? then c.cost.value else price(c.usage)
    ensures TotalOf(calls, bill).cost == Recorded(calls) + TokenUsage.BillSum(Usages(Unpriced(calls)), price)
  {
    if calls != [] {
      var front, c := Front(calls), Last(calls);
      assert calls == front + [c] && c in calls;
      RecordedAndPriced(front, bill, price);
      if c.cost.None? {
        var before := Usages(Unpriced(front));
        assert Usages(Unpriced(calls)) == before + [c.usage];
        assert Front(before + [c.usage]) == before && Last(before + [c.usage]) == c.usage;
      } else {
        assert Unpriced(calls) == Unpriced(front);
      }
    } else {
      assert Usages(Unpriced(calls)) == [];
    }
  }

  lemma {:induction false} OneRowCosts(calls: seq<Call>, tiers: Tiers, m: TokenUsage.Model)
    requires forall c :: c in calls ==> tiers(c.modelName) == m
    ensures TotalOf(calls, BillUnder(tiers)).cost
            == Recorded(calls) + TokenUsage.Total(TokenUsage.CostSum(Usages(Unpriced(calls)), m))
  {
    RecordedAndPriced(calls, BillUnder(tiers), TokenUsage.Bills(m));
    TokenUsage.TotalIsBillSum(Usages(Unpriced(calls)), m);
  }

  lemma {:induction false} UnderIsPriced(calls: seq<Call>, tiers: Tiers, m: TokenUsage.Model)
    ensures forall c :: c in Under(calls, ByModel(tiers), Row(m)) ==> tiers(c.modelName) == m
  {
    if calls != [] {
      assert calls == Front(calls) + [Last(calls)];
      UnderIsPriced(Front(calls), tiers, m);
      assert Row(tiers(Last(calls).modelName)) == Row(m) ==> tiers(Last(calls).modelName) == m;
    }
  }

  /** A model's bucket costs what its calls record, and for those that record nothing what the token-usage script bills them. */
  lemma {:induction false} ModelBucketIsTokenUsageBill(calls: seq<Call>, tiers: Tiers, m: TokenUsage.Model)
    ensures var mine := Under(calls, ByModel(tiers), Row(m));
            TotalOf(mine, BillUnder(tiers)).cost == Recorded(mine) + TokenUsage.EstimateOf(Usages(Unpriced(mine)), m).total
  {
    UnderIsPriced(calls, tiers, m);
    OneRowCosts(Under(calls, ByModel(tiers), Row(m)), tiers, m);
  }

  /** The keys of the groupings: a row goes by the name that the other script knows it by, a day is ten characters long. */
  lemma KeysAreNames(c: Call, tiers: Tiers)
    ensures ByModel(tiers)(c).Some? && TokenUsage.ModelNamed(ByModel(tiers)(c).value.text) == tiers(c.modelName)
    ensures Day(c).Some? && Day(c).value.text <= c.timestamp
    ensures |Day(c).value.text| == if |c.timestamp| <= 10 then |c.timestamp| else 10
  {
    match tiers(c.modelName)
    case Sonnet =>
    case Opus =>
    case Opus46 =>
    case Haiku =>
  }

  /** Every field of a total counts what it is named for. */
  lemma {:induction false} TotalsCount(calls: seq<Call>, c: Call, tiers: Tiers)
    ensures var before, all := TotalOf(calls, BillUnder(tiers)), TotalOf(calls + [c], BillUnder(tiers));
            && all.input == before.input + c.usage.input && all.output == before.output + c.usage.output
            && all.cacheRead == before.cacheRead + c.usage.cacheRead
            && all.cacheCreation == before.cacheCreation + c.usage.cacheCreation
            && all.count == before.count + 1 && all.models == before.models + multiset{c.modelName}
            && all.cost == before.cost + (if c.cost.Some? then c.cost.value else TokenUsage.Bill(c.usage, tiers(c.modelName)))
            && TotalOf([], BillUnder(tiers)) == Totals(0, 0, 0, 0, 0, 0.0, multiset{})
  {
    assert Front(calls + [c]) == calls && Last(calls + [c]) == c;
  }
}
