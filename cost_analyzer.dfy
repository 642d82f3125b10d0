/** `analyze_costs`: folds billing records into a cost summary. No model call. */
module CostAnalyzer {
  import opened PyValue

  /** The two fields of a billing record that the analysis reads: `service`
      and `cost_inr`, each possibly absent. */
  datatype BillingRecord = BillingRecord(service: Option<string>, costInr: Option<int>)

  /** `record.get('service', 'Other')` */
  function ServiceOf(r: BillingRecord): string {
    if r.service.Some? then r.service.value else "Other"
  }

  /** `record.get('cost_inr', 0)` */
  function CostOf(r: BillingRecord): int {
    if r.costInr.Some? then r.costInr.value else 0
  }

  // ---------------------------------------------------------------------------
  // Reference definitions over the records
  // ---------------------------------------------------------------------------

  /** The sum of every record's cost. */
  function TotalCost(rs: seq<BillingRecord>): int {
    if rs == [] then 0 else TotalCost(rs[..|rs| - 1]) + CostOf(rs[|rs| - 1])
  }

  /** The sum of the costs of the records billed to `s`. */
  function ServiceTotal(rs: seq<BillingRecord>, s: string): int {
    if rs == [] then 0
    else ServiceTotal(rs[..|rs| - 1], s) + (if ServiceOf(rs[|rs| - 1]) == s then CostOf(rs[|rs| - 1]) else 0)
  }

  predicate Distinct(xs: seq<string>) {
    forall i, j :: 0 <= i < j < |xs| ==> xs[i] != xs[j]
  }

  /** The services of the records, each once, in the order they first appear. */
  function FirstSeen(rs: seq<BillingRecord>): (r: seq<string>)
    ensures Distinct(r)
  {
    if rs == [] then []
    else
      var f := FirstSeen(rs[..|rs| - 1]);
      if ServiceOf(rs[|rs| - 1]) in f then f else f + [ServiceOf(rs[|rs| - 1])]
  }

  /** A service is listed exactly when some record is billed to it. */
  lemma {:induction false} FirstSeenListsEveryService(rs: seq<BillingRecord>, s: string)
    ensures s in FirstSeen(rs) <==> exists k :: 0 <= k < |rs| && ServiceOf(rs[k]) == s
  {
    if rs != [] {
      var init := rs[..|rs| - 1];
      FirstSeenListsEveryService(init, s);
      if s in FirstSeen(init) {
        var k :| 0 <= k < |init| && ServiceOf(init[k]) == s;
        assert rs[k] == init[k];
      }
      if exists k :: 0 <= k < |rs| && ServiceOf(rs[k]) == s {
        var k :| 0 <= k < |rs| && ServiceOf(rs[k]) == s;
        if k < |init| {
          assert init[k] == rs[k];
        }
      }
    }
  }

  /** The index of the first record billed to `s`, or -1 when there is none. */
  function FirstBilled(rs: seq<BillingRecord>, s: string): (k: int)
    ensures -1 <= k < |rs|
    ensures k == -1 ==> forall i :: 0 <= i < |rs| ==> ServiceOf(rs[i]) != s
    ensures k >= 0 ==> ServiceOf(rs[k]) == s && forall i :: 0 <= i < k ==> ServiceOf(rs[i]) != s
  {
    if rs == [] then -1
    else
      var k := FirstBilled(rs[..|rs| - 1], s);
      if k >= 0 then k
      else if ServiceOf(rs[|rs| - 1]) == s then |rs| - 1
      else -1
  }

  /** The services are listed in the order of their first records: of two
      listed services, the earlier one was billed first. */
  lemma {:induction false} FirstSeenOrder(rs: seq<BillingRecord>, i: nat, j: nat)
    requires i < j < |FirstSeen(rs)|
    ensures 0 <= FirstBilled(rs, FirstSeen(rs)[i]) < FirstBilled(rs, FirstSeen(rs)[j])
  {
    var init := rs[..|rs| - 1];
    var f := FirstSeen(init);
    var a, b := FirstSeen(rs)[i], FirstSeen(rs)[j];
    if j < |f| {
      assert a == f[i] && b == f[j];
      FirstSeenOrder(init, i, j);
    } else {
      assert a == f[i] && b == ServiceOf(rs[|rs| - 1]) && b !in f;
      FirstSeenListsEveryService(init, a);
      FirstSeenListsEveryService(init, b);
      assert FirstBilled(init, a) >= 0;
      assert FirstBilled(init, b) == -1;
    }
  }

  /** A service's place in the list is its rank by first record. */
  lemma {:induction false} FirstSeenIndexOrder(rs: seq<BillingRecord>, i: nat, j: nat)
    requires i < |FirstSeen(rs)| && j < |FirstSeen(rs)|
    ensures i < j <==> FirstBilled(rs, FirstSeen(rs)[i]) < FirstBilled(rs, FirstSeen(rs)[j])
  {
    if i < j {
      FirstSeenOrder(rs, i, j);
    } else if j < i {
      FirstSeenOrder(rs, j, i);
    }
  }

  // ---------------------------------------------------------------------------
  // Insertion-ordered dict from service to cost
  // ---------------------------------------------------------------------------

  /** A Python dict from service to cost: `services` lists its keys in
      insertion order. */
  datatype CostTable = CostTable(services: seq<string>, costs: map<string, int>) {
    ghost predicate Valid() {
      Distinct(services) && forall s :: s in costs <==> s in services
    }
  }

  /** `costs.get(s, 0)` */
  function CostIn(costs: map<string, int>, s: string): int {
    if s in costs then costs[s] else 0
  }

  /** The sum of the costs of the listed services. */
  function SumCosts(services: seq<string>, costs: map<string, int>): int {
    if services == [] then 0
    else SumCosts(services[..|services| - 1], costs) + CostIn(costs, services[|services| - 1])
  }

  /** Changing the entry of an unlisted service leaves the sum alone. */
  lemma {:induction false} SumCostsFrame(services: seq<string>, costs: map<string, int>, s: string, v: int)
    requires s !in services
    ensures SumCosts(services, costs[s := v]) == SumCosts(services, costs)
  {
    if services != [] {
      SumCostsFrame(services[..|services| - 1], costs, s, v);
    }
  }

  /** Adding `c` to the entry of a service listed once adds `c` to the sum. */
  lemma {:induction false} SumCostsBump(services: seq<string>, costs: map<string, int>, s: string, c: int)
    requires Distinct(services) && s in services
    ensures SumCosts(services, costs[s := CostIn(costs, s) + c]) == SumCosts(services, costs) + c
  {
    var n := |services|;
    var init := services[..n - 1];
    if services[n - 1] == s {
      assert s !in init by {
        forall k | 0 <= k < |init| ensures init[k] != s {
          assert init[k] == services[k];
        }
      }
      SumCostsFrame(init, costs, s, CostIn(costs, s) + c);
    } else {
      assert s in init by {
        var k :| 0 <= k < n && services[k] == s;
        assert init[k] == s;
      }
      SumCostsBump(init, costs, s, c);
    }
  }

  // ---------------------------------------------------------------------------
  // sorted(service_costs.items(), key=lambda x: x[1], reverse=True)[:3]
  // ---------------------------------------------------------------------------

  /** An item of the dict together with its insertion position. */
  datatype Ranked = Ranked(pos: nat, service: string, cost: int)

  /** `a` comes before `b` in the sorted list: a higher cost first and, since
      Python's sort stays stable under reverse=True, among equal costs the
      item inserted earlier. */
  predicate RanksBefore(a: Ranked, b: Ranked) {
    a.cost > b.cost || (a.cost == b.cost && a.pos < b.pos)
  }

  predicate SortedByRank(s: seq<Ranked>) {
    forall i, j :: 0 <= i < j < |s| ==> RanksBefore(s[i], s[j])
  }

  /** `x` is the item of the dict at position `x.pos`. */
  predicate IsItemOf(t: CostTable, x: Ranked) {
    x.pos < |t.services| && x.service == t.services[x.pos] && x.service in t.costs && x.cost == t.costs[x.service]
  }

  /** The items of the dict in insertion order. */
  function Ranking(t: CostTable): (r: seq<Ranked>)
    requires t.Valid()
    ensures |r| == |t.services|
    ensures forall i :: 0 <= i < |r| ==> r[i].pos == i && IsItemOf(t, r[i])
  {
    seq(|t.services|, i requires 0 <= i < |t.services| => Ranked(i, t.services[i], t.costs[t.services[i]]))
  }

  /** Puts `x` into a list before the first item it ranks before. */
  function Insert(x: Ranked, s: seq<Ranked>): (r: seq<Ranked>)
    ensures |r| == |s| + 1
    ensures multiset(r) == multiset(s) + multiset{x}
  {
    if s == [] then [x]
    else if RanksBefore(x, s[0]) then [x] + s
    else
      assert s == [s[0]] + s[1..];
      [s[0]] + Insert(x, s[1..])
  }

  /** Inserting into a sorted list keeps it sorted; the new head is `x` or the
      old one. */
  lemma {:induction false} InsertKeepsOrder(x: Ranked, s: seq<Ranked>)
    requires SortedByRank(s)
    requires forall k :: 0 <= k < |s| ==> s[k].pos != x.pos
    ensures SortedByRank(Insert(x, s))
    ensures Insert(x, s)[0] == x || (s != [] && Insert(x, s)[0] == s[0])
  {
    if s == [] {
    } else if RanksBefore(x, s[0]) {
      var r := [x] + s;
      forall i, j | 0 <= i < j < |r| ensures RanksBefore(r[i], r[j]) {
        if i == 0 && j > 1 {
          assert RanksBefore(s[0], s[j - 1]);
        }
      }
    } else {
      var rest := Insert(x, s[1..]);
      InsertKeepsOrder(x, s[1..]);
      assert RanksBefore(s[0], rest[0]);
      var r := [s[0]] + rest;
      forall i, j | 0 <= i < j < |r| ensures RanksBefore(r[i], r[j]) {
        if i == 0 && j > 1 {
          assert RanksBefore(rest[0], rest[j - 1]);
        }
      }
    }
  }

  /** The items arranged by RanksBefore. Since RanksBefore orders items with
      distinct positions totally, this is the one arrangement Python's stable
      sort can produce. */
  function SortByCost(s: seq<Ranked>): (r: seq<Ranked>)
    requires forall i, j :: 0 <= i < j < |s| ==> s[i].pos < s[j].pos
    ensures |r| == |s|
    ensures SortedByRank(r)
    ensures multiset(r) == multiset(s)
  {
    if s == [] then []
    else
      var rest := SortByCost(s[1..]);
      assert s == [s[0]] + s[1..];
      forall k | 0 <= k < |rest| ensures rest[k].pos != s[0].pos {
        assert rest[k] in multiset(s[1..]);
      }
      InsertKeepsOrder(s[0], rest);
      Insert(s[0], rest)
  }

  /** The item ranked first is the same in every sorted arrangement. */
  lemma {:induction false} SortedHeadsAgree(a: seq<Ranked>, b: seq<Ranked>)
    requires SortedByRank(a) && SortedByRank(b)
    requires multiset(a) == multiset(b)
    requires a != []
    ensures b != [] && a[0] == b[0]
  {
    assert a[0] in multiset(b);
    assert b[0] in multiset(a);
    var i :| 0 <= i < |a| && a[i] == b[0];
    var j :| 0 <= j < |b| && b[j] == a[0];
    assert i == 0 || RanksBefore(a[0], a[i]);
    assert j == 0 || RanksBefore(b[0], b[j]);
  }

  lemma {:induction false} SortedTail(a: seq<Ranked>)
    requires SortedByRank(a) && a != []
    ensures SortedByRank(a[1..])
  {
    var t := a[1..];
    forall i, j | 0 <= i < j < |t| ensures RanksBefore(t[i], t[j]) {
      assert t[i] == a[i + 1] && t[j] == a[j + 1];
    }
  }

  lemma {:induction false} SameItemsAfterHead(a: seq<Ranked>, b: seq<Ranked>)
    requires a != [] && b != [] && a[0] == b[0]
    requires multiset(a) == multiset(b)
    ensures multiset(a[1..]) == multiset(b[1..])
  {
    var ta, tb := a[1..], b[1..];
    assert a == [a[0]] + ta && b == [b[0]] + tb;
    assert multiset(a) == multiset{a[0]} + multiset(ta);
    assert multiset(b) == multiset{b[0]} + multiset(tb);
    forall x ensures multiset(ta)[x] == multiset(tb)[x] {
      assert multiset(a)[x] == multiset{a[0]}[x] + multiset(ta)[x];
      assert multiset(b)[x] == multiset{b[0]}[x] + multiset(tb)[x];
    }
  }

  /** Two arrangements of the same items that both follow RanksBefore are the
      same list: a stable sort by cost, descending, has one possible result. */
  lemma {:induction false} SortedArrangementIsUnique(a: seq<Ranked>, b: seq<Ranked>)
    requires SortedByRank(a) && SortedByRank(b)
    requires multiset(a) == multiset(b)
    ensures a == b
    decreases |a|
  {
    if a == [] {
      assert |b| == |multiset(b)| == 0;
    } else {
      SortedHeadsAgree(a, b);
      SortedTail(a);
      SortedTail(b);
      SameItemsAfterHead(a, b);
      SortedArrangementIsUnique(a[1..], b[1..]);
      assert a == [a[0]] + a[1..] && b == [b[0]] + b[1..];
    }
  }

  /** `sorted(service_costs.items(), key=lambda x: x[1], reverse=True)`. */
  function SortedItems(t: CostTable): (r: seq<Ranked>)
    requires t.Valid()
    ensures |r| == |t.services|
    ensures SortedByRank(r)
    ensures multiset(r) == multiset(Ranking(t))
    ensures forall i :: 0 <= i < |r| ==> IsItemOf(t, r[i])
  {
    var r := SortByCost(Ranking(t));
    assert forall i :: 0 <= i < |r| ==> IsItemOf(t, r[i]) by {
      forall i | 0 <= i < |r| ensures IsItemOf(t, r[i]) {
        assert r[i] in multiset(Ranking(t));
      }
    }
    r
  }

  /** Any arrangement of the dict's items in which higher costs come first
      and equal costs keep their insertion order (what Python's stable
      `sorted(..., reverse=True)` returns) is SortedItems. */
  lemma {:induction false} StableSortIsSortedItems(t: CostTable, order: seq<Ranked>)
    requires t.Valid()
    requires multiset(order) == multiset(Ranking(t))
    requires SortedByRank(order)
    ensures order == SortedItems(t)
  {
    SortedArrangementIsUnique(order, SortedItems(t));
  }

  /** Every item of the dict has a place in the sorted list. */
  lemma {:induction false} ItemIsSorted(t: CostTable, k: nat) returns (j: nat)
    requires t.Valid() && k < |t.services|
    ensures j < |SortedItems(t)| && SortedItems(t)[j] == Ranking(t)[k]
  {
    assert Ranking(t)[k] in multiset(SortedItems(t));
    j :| 0 <= j < |SortedItems(t)| && SortedItems(t)[j] == Ranking(t)[k];
  }

  function Min(a: int, b: int): int {
    if a <= b then a else b
  }

  /** The dict comprehension `{k: v for k, v in items}` over items with
      distinct keys. */
  function TableOf(items: seq<Ranked>): (r: CostTable)
    requires forall i, j :: 0 <= i < j < |items| ==> items[i].service != items[j].service
    ensures r.Valid() && |r.services| == |items|
    ensures forall i :: 0 <= i < |items| ==> r.services[i] == items[i].service && r.costs[items[i].service] == items[i].cost
  {
    var services := seq(|items|, i requires 0 <= i < |items| => items[i].service);
    var costs := map i | 0 <= i < |items| :: items[i].service := items[i].cost;
    assert forall s :: s in costs <==> s in services by {
      forall s ensures s in costs <==> s in services {
        if s in services {
          var i :| 0 <= i < |services| && services[i] == s;
          assert items[i].service == s;
        }
        if s in costs {
          var i :| 0 <= i < |items| && items[i].service == s;
          assert services[i] == s;
        }
      }
    }
    CostTable(services, costs)
  }

  /** The first three items of the sorted list. */
  function TopItems(t: CostTable): (top: seq<Ranked>)
    requires t.Valid()
    ensures |top| == Min(3, |t.services|)
    ensures top == SortedItems(t)[..|top|]
    ensures forall i, j :: 0 <= i < j < |top| ==> RanksBefore(top[i], top[j])
    ensures forall i :: 0 <= i < |top| ==> IsItemOf(t, top[i])
    ensures forall i, j :: 0 <= i < j < |top| ==> top[i].service != top[j].service
  {
    var sorted := SortedItems(t);
    var top := sorted[..Min(3, |sorted|)];
    assert forall i, j :: 0 <= i < j < |top| ==> top[i].service != top[j].service by {
      forall i, j | 0 <= i < j < |top| ensures top[i].service != top[j].service {
        assert IsItemOf(t, sorted[i]) && IsItemOf(t, sorted[j]);
        assert RanksBefore(top[i], top[j]);
      }
    }
    top
  }

  /** `high_cost_services`: the first three items of the sorted list, as a
      dict. It holds min(3, n) of the n services, each with the cost
      service_costs gives it. */
  function TopServices(t: CostTable): (r: CostTable)
    requires t.Valid()
    ensures r.Valid()
    ensures |r.services| == Min(3, |t.services|)
    ensures forall s :: s in r.costs ==> s in t.costs && r.costs[s] == t.costs[s]
  {
    var top := TopItems(t);
    var r := TableOf(top);
    assert forall s :: s in r.costs ==> s in t.costs && r.costs[s] == t.costs[s] by {
      forall s | s in r.costs
        ensures s in t.costs && r.costs[s] == t.costs[s]
      {
        var i :| 0 <= i < |r.services| && r.services[i] == s;
        assert IsItemOf(t, top[i]);
      }
    }
    r
  }

  /** Which item of the dict `s` is: its insertion position. */
  function IndexOf(xs: seq<string>, s: string): (k: nat)
    requires s in xs
    ensures k < |xs| && xs[k] == s && s !in xs[..k]
  {
    if xs[0] == s then 0
    else
      assert xs == [xs[0]] + xs[1..];
      1 + IndexOf(xs[1..], s)
  }

  lemma {:induction false} PositionIsIndex(t: CostTable, k: nat)
    requires t.Valid() && k < |t.services|
    ensures IndexOf(t.services, t.services[k]) == k
  {
  }

  /** A service that high_cost_services leaves out costs less than every
      service it keeps, or as much but was seen later. */
  lemma {:induction false} LeftOutServiceRanksLower(t: CostTable, s: string, u: string)
    requires t.Valid()
    requires s in t.costs && s !in TopServices(t).costs && u in TopServices(t).costs
    ensures t.costs[s] < t.costs[u] || (t.costs[s] == t.costs[u] && IndexOf(t.services, u) < IndexOf(t.services, s))
  {
    var sorted := SortedItems(t);
    var top := TopItems(t);
    var r := TopServices(t);
    var k := IndexOf(t.services, s);
    var j := ItemIsSorted(t, k);
    assert forall i :: 0 <= i < |top| ==> sorted[i].service != s by {
      forall i | 0 <= i < |top| ensures sorted[i].service != s {
        assert r.services[i] == top[i].service;
      }
    }
    assert sorted[j].service == s;
    var i :| 0 <= i < |r.services| && r.services[i] == u;
    assert RanksBefore(sorted[i], sorted[j]);
    PositionIsIndex(t, sorted[i].pos);
  }

  /** `a` comes before `b` in a list sorted by cost from high to low, equal
      costs in first-seen order. */
  predicate ListedBefore(t: CostTable, a: string, b: string)
    requires t.Valid()
  {
    a in t.costs && b in t.costs &&
    (t.costs[a] > t.costs[b] || (t.costs[a] == t.costs[b] && a in t.services && b in t.services && IndexOf(t.services, a) < IndexOf(t.services, b)))
  }

  /** Two services of high_cost_services, in the order it lists them. */
  lemma {:induction false} TopPairDescends(t: CostTable, i: nat, j: nat)
    requires t.Valid() && i < j < |TopServices(t).services|
    ensures ListedBefore(t, TopServices(t).services[i], TopServices(t).services[j])
  {
    var top := TopItems(t);
    assert IsItemOf(t, top[i]) && IsItemOf(t, top[j]) && RanksBefore(top[i], top[j]);
    PositionIsIndex(t, top[i].pos);
    PositionIsIndex(t, top[j].pos);
  }

  /** high_cost_services lists its services by cost from high to low, equal
      costs in first-seen order. */
  lemma {:induction false} TopServicesDescend(t: CostTable)
    requires t.Valid()
    ensures forall i, j :: 0 <= i < j < |TopServices(t).services| ==>
      ListedBefore(t, TopServices(t).services[i], TopServices(t).services[j])
  {
    forall i, j | 0 <= i < j < |TopServices(t).services|
      ensures ListedBefore(t, TopServices(t).services[i], TopServices(t).services[j])
    {
      TopPairDescends(t, i, j);
    }
  }

  /** The tie-break among equal costs, a service's position among the dict's
      keys, is the order in which the services were first billed. */
  lemma {:induction false} TieBreakIsFirstBilled(rs: seq<BillingRecord>, a: string, b: string)
    requires a in FirstSeen(rs) && b in FirstSeen(rs)
    ensures IndexOf(FirstSeen(rs), a) < IndexOf(FirstSeen(rs), b) <==> FirstBilled(rs, a) < FirstBilled(rs, b)
  {
    FirstSeenIndexOrder(rs, IndexOf(FirstSeen(rs), a), IndexOf(FirstSeen(rs), b));
  }

  /** Every service high_cost_services keeps is listed before every service it
      leaves out. */
  lemma {:induction false} LeftOutServicesRankLower(t: CostTable)
    requires t.Valid()
    ensures forall s, u :: s in t.costs && s !in TopServices(t).costs && u in TopServices(t).costs ==> ListedBefore(t, u, s)
  {
    var r := TopServices(t);
    forall s, u | s in t.costs && s !in r.costs && u in r.costs
      ensures ListedBefore(t, u, s)
    {
      LeftOutServiceRanksLower(t, s, u);
    }
  }

  // ---------------------------------------------------------------------------
  // analyze_costs
  // ---------------------------------------------------------------------------

  /** The summary dict `analyze_costs` returns. */
  datatype CostSummary = CostSummary(
    totalMonthlyCost: int,
    budget: int,
    budgetVariance: int,
    serviceCosts: CostTable,
    highCostServices: CostTable,
    isOverBudget: bool)

  const BudgetKey := "budget_inr_per_month"

  /** The profile can answer `profile.get('budget_inr_per_month', 0)` with a
      value Python can subtract from and compare with an int: a number, or a
      boolean, `bool` being a subclass of `int`. Any other value makes
      `total_cost - budget` raise TypeError. */
  predicate BudgetReadable(profile: Json) {
    profile.Obj? && (BudgetKey in profile.fields ==> profile.fields[BudgetKey].Num? || profile.fields[BudgetKey].Bool?)
  }

  /** `profile.get('budget_inr_per_month', 0)` as the integer that
      `budget_variance` and `is_over_budget` compute with: `True` is 1 and
      `False` is 0. */
  function BudgetOf(profile: Json): (n: int)
    requires BudgetReadable(profile)
    ensures Get(profile, BudgetKey, Num(0)).Num? ==> Num(n) == Get(profile, BudgetKey, Num(0))
    ensures Get(profile, BudgetKey, Num(0)) == Bool(true) ==> n == 1
    ensures Get(profile, BudgetKey, Num(0)) == Bool(false) ==> n == 0
  {
    var v := Get(profile, BudgetKey, Num(0));
    if v.Num? then v.n else if v.b then 1 else 0
  }

  /** The dict the loop builds, record by record: each record's cost is added
      to what the dict holds for its service. */
  function ServiceTotals(rs: seq<BillingRecord>): map<string, int> {
    if rs == [] then map[]
    else
      var m, x := ServiceTotals(rs[..|rs| - 1]), rs[|rs| - 1];
      m[ServiceOf(x) := CostIn(m, ServiceOf(x)) + CostOf(x)]
  }

  /** The dict's keys are the services in the records. */
  lemma {:induction false} ServiceTotalsKeys(rs: seq<BillingRecord>, s: string)
    ensures s in ServiceTotals(rs) <==> s in FirstSeen(rs)
  {
    if rs != [] {
      ServiceTotalsKeys(rs[..|rs| - 1], s);
    }
  }

  /** The dict holds for each service the sum of its records' costs (0 for a
      service with no records). */
  lemma {:induction false} ServiceTotalsValues(rs: seq<BillingRecord>, s: string)
    ensures CostIn(ServiceTotals(rs), s) == ServiceTotal(rs, s)
  {
    if rs != [] {
      ServiceTotalsValues(rs[..|rs| - 1], s);
    }
  }

  /** The entries of the dict add up to the total cost. */
  lemma {:induction false} ServiceTotalsSum(rs: seq<BillingRecord>)
    ensures SumCosts(FirstSeen(rs), ServiceTotals(rs)) == TotalCost(rs)
  {
    if rs != [] {
      var init, x := rs[..|rs| - 1], rs[|rs| - 1];
      var f, m := FirstSeen(init), ServiceTotals(init);
      var sv, c := ServiceOf(x), CostOf(x);
      var m' := m[sv := CostIn(m, sv) + c];
      ServiceTotalsSum(init);
      assert TotalCost(rs) == TotalCost(init) + c;
      assert ServiceTotals(rs) == m';
      if sv in f {
        assert FirstSeen(rs) == f;
        SumCostsBump(f, m, sv, c);
      } else {
        assert FirstSeen(rs) == f + [sv];
        assert (f + [sv])[..|f|] == f;
        assert SumCosts(f + [sv], m') == SumCosts(f, m') + CostIn(m', sv);
        SumCostsFrame(f, m, sv, CostIn(m, sv) + c);
        ServiceTotalsKeys(init, sv);
      }
    }
  }

  /** The dict the loop builds is a well-formed table of the per-service
      totals, listed in first-seen order, whose entries add up to the total. */
  lemma {:induction false} ServiceTotalsTable(rs: seq<BillingRecord>)
    ensures CostTable(FirstSeen(rs), ServiceTotals(rs)).Valid()
    ensures forall s :: s in ServiceTotals(rs) ==> ServiceTotals(rs)[s] == ServiceTotal(rs, s)
    ensures SumCosts(FirstSeen(rs), ServiceTotals(rs)) == TotalCost(rs)
  {
    forall s ensures s in ServiceTotals(rs) <==> s in FirstSeen(rs) {
      ServiceTotalsKeys(rs, s);
    }
    forall s | s in ServiceTotals(rs) ensures ServiceTotals(rs)[s] == ServiceTotal(rs, s) {
      ServiceTotalsValues(rs, s);
    }
    ServiceTotalsSum(rs);
  }

  /** One more record: the total grows by its cost, its service is appended
      to the keys unless the dict already has it, and its cost is added to
      the service's entry. */
  lemma {:induction false} AccumulateStep(rs: seq<BillingRecord>, x: BillingRecord)
    ensures TotalCost(rs + [x]) == TotalCost(rs) + CostOf(x)
    ensures FirstSeen(rs + [x]) ==
      if ServiceOf(x) in ServiceTotals(rs) then FirstSeen(rs) else FirstSeen(rs) + [ServiceOf(x)]
    ensures ServiceTotals(rs + [x]) ==
      ServiceTotals(rs)[ServiceOf(x) := CostIn(ServiceTotals(rs), ServiceOf(x)) + CostOf(x)]
  {
    assert (rs + [x])[..|rs|] == rs;
    ServiceTotalsKeys(rs, ServiceOf(x));
  }

  /** The loop of `analyze_costs`: the running total and the dict, whose keys
      `services` lists in insertion order. */
  method AccumulateCosts(billing: seq<BillingRecord>) returns (total: int, services: seq<string>, costs: map<string, int>)
    ensures total == TotalCost(billing)
    ensures services == FirstSeen(billing)
    ensures costs == ServiceTotals(billing)
  {
    total := 0;
    services := [];
    costs := map[];
    for i := 0 to |billing|
      invariant total == TotalCost(billing[..i])
      invariant services == FirstSeen(billing[..i])
      invariant costs == ServiceTotals(billing[..i])
    {
      var cost := CostOf(billing[i]);
      var service := ServiceOf(billing[i]);
      assert billing[..i + 1] == billing[..i] + [billing[i]];
      AccumulateStep(billing[..i], billing[i]);
      total := total + cost;
      if service !in costs {
        services := services + [service];
      }
      costs := costs[service := CostIn(costs, service) + cost];
    }
    assert billing[..|billing|] == billing;
  }

  /** `analyze_costs(profile, billing_data)`. */
  method AnalyzeCosts(profile: Json, billing: seq<BillingRecord>) returns (r: Option<CostSummary>)
    requires Truthy(profile) && billing != [] ==> BudgetReadable(profile)
    ensures r.None? <==> !Truthy(profile) || billing == []
    ensures r.Some? ==>
      var summary := r.value;
      && summary.totalMonthlyCost == TotalCost(billing)
      && summary.budget == BudgetOf(profile)
      && summary.budgetVariance == TotalCost(billing) - BudgetOf(profile)
      && summary.isOverBudget == (TotalCost(billing) > BudgetOf(profile))
      && summary.serviceCosts.Valid()
      && summary.serviceCosts.services == FirstSeen(billing)
      && (forall s :: s in summary.serviceCosts.costs ==> summary.serviceCosts.costs[s] == ServiceTotal(billing, s))
      && SumCosts(summary.serviceCosts.services, summary.serviceCosts.costs) == TotalCost(billing)
      && summary.highCostServices == TopServices(summary.serviceCosts)
  {
    if !Truthy(profile) || billing == [] {
      return None;
    }
    var budget := BudgetOf(profile);
    var total, services, costs := AccumulateCosts(billing);
    ServiceTotalsTable(billing);
    var table := CostTable(services, costs);
    var summary := CostSummary(total, budget, total - budget, table, TopServices(table), total > budget);
    return Some(summary);
  }
}
