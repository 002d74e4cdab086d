/**
 * KPI detection and chart selection over an uploaded table.
 *
 * A table is its columns in order; each column has a name, a flag saying
 * whether its data type is numeric, and its values (integers here).  A chart
 * is only its title.
 */
module Analytics {
  import opened Text

  datatype Column = Column(name: string, numeric: bool, values: seq<int>)

  type Table = seq<Column>

  /** The four KPI buckets, in the order the detector tests them. */
  datatype Kpi = Sales | Profit | Cost | Quantity

  const SalesLabel := "Total Sales"
  const ProfitLabel := "Total Profit"
  const CostLabel := "Total Cost"
  const QuantityLabel := "Total Quantity"

  /** The only keys a KPI map can have. */
  const Labels: set<string> := {SalesLabel, ProfitLabel, CostLabel, QuantityLabel}

  function Label(k: Kpi): string {
    match k
    case Sales => SalesLabel
    case Profit => ProfitLabel
    case Cost => CostLabel
    case Quantity => QuantityLabel
  }

  /** The already lower-cased name `n` contains one of bucket `k`'s keywords. */
  predicate Feeds(k: Kpi, n: string) {
    match k
    case Sales => Contains(n, "sales") || Contains(n, "revenue")
    case Profit => Contains(n, "profit")
    case Cost => Contains(n, "cost")
    case Quantity => Contains(n, "quantity") || Contains(n, "qty")
  }

  /** The column named `name` feeds bucket `k`: its lower-cased name contains one of the bucket's keywords. */
  predicate Triggers(k: Kpi, name: string) {
    Feeds(k, Lower(name))
  }

  /** `df[col].sum()`: the sum of a column's values, 0 for no values. */
  function Sum(xs: seq<int>): int {
    if xs == [] then 0 else Sum(xs[..|xs| - 1]) + xs[|xs| - 1]
  }

  /** Summing two runs of values one after the other adds their sums. */
  lemma {:induction false} SumAppend(xs: seq<int>, ys: seq<int>)
    ensures Sum(xs + ys) == Sum(xs) + Sum(ys)
    decreases |ys|
  {
    if ys == [] {
      assert xs + ys == xs;
    } else {
      var ys' := ys[..|ys| - 1];
      assert (xs + ys)[..|xs + ys| - 1] == xs + ys';
      assert (xs + ys)[|xs + ys| - 1] == ys[|ys| - 1];
      SumAppend(xs, ys');
      assert Sum(ys) == Sum(ys') + ys[|ys| - 1];
    }
  }

  /** One pass of the detector's loop body: four independent tests, each overwriting its label. */
  function Apply(kpis: map<string, int>, c: Column): map<string, int> {
    var total := Sum(c.values);
    var m1 := if Triggers(Sales, c.name) then kpis[SalesLabel := total] else kpis;
    var m2 := if Triggers(Profit, c.name) then m1[ProfitLabel := total] else m1;
    var m3 := if Triggers(Cost, c.name) then m2[CostLabel := total] else m2;
    if Triggers(Quantity, c.name) then m3[QuantityLabel := total] else m3
  }

  /** The KPI map after the loop has visited the columns of `t` in order, starting from the empty map. */
  function Kpis(t: Table): map<string, int> {
    if t == [] then map[] else Apply(Kpis(t[..|t| - 1]), t[|t| - 1])
  }

  /** `detect_kpis`: build the KPI map by in-place assignment while walking the columns. */
  method DetectKpis(t: Table) returns (kpis: map<string, int>)
    ensures kpis == Kpis(t)
  {
    kpis := map[];
    for i := 0 to |t|
      invariant kpis == Kpis(t[..i])
    {
      var col := t[i];
      var name := Lower(col.name);
      if Contains(name, "sales") || Contains(name, "revenue") {
        kpis := kpis[SalesLabel := Sum(col.values)];
      }
      if Contains(name, "profit") {
        kpis := kpis[ProfitLabel := Sum(col.values)];
      }
      if Contains(name, "cost") {
        kpis := kpis[CostLabel := Sum(col.values)];
      }
      if Contains(name, "quantity") || Contains(name, "qty") {
        kpis := kpis[QuantityLabel := Sum(col.values)];
      }
      assert t[..i + 1][..i] == t[..i];
    }
    assert t[..|t|] == t;
  }

  /** Every key of the KPI map is one of the four labels. */
  lemma {:induction false} KpisKeys(t: Table)
    ensures Kpis(t).Keys <= Labels
  {
    if t != [] {
      KpisKeys(t[..|t| - 1]);
    }
  }

  /** One column adds a label exactly when it feeds that bucket, and then sets it to the column's sum; other labels are untouched. */
  lemma ApplyLabel(m: map<string, int>, c: Column, k: Kpi)
    ensures Label(k) in Apply(m, c) <==> Label(k) in m || Triggers(k, c.name)
    ensures Triggers(k, c.name) ==> Apply(m, c)[Label(k)] == Sum(c.values)
    ensures !Triggers(k, c.name) && Label(k) in m ==> Apply(m, c)[Label(k)] == m[Label(k)]
  {
  }

  /** A label is present exactly when some column's lower-cased name contains one of its keywords. */
  lemma {:induction false} KpisPresence(t: Table, k: Kpi)
    ensures Label(k) in Kpis(t) <==> exists j :: 0 <= j < |t| && Triggers(k, t[j].name)
  {
    if t != [] {
      var p := t[..|t| - 1];
      KpisPresence(p, k);
      ApplyLabel(Kpis(p), t[|t| - 1], k);
      if Label(k) in Kpis(t) && !Triggers(k, t[|t| - 1].name) {
        var j :| 0 <= j < |p| && Triggers(k, p[j].name);
        assert t[j] == p[j];
      }
      if !Triggers(k, t[|t| - 1].name) && exists j :: 0 <= j < |t| && Triggers(k, t[j].name) {
        var j :| 0 <= j < |t| && Triggers(k, t[j].name);
        assert j < |p| && p[j] == t[j];
      }
    }
  }

  /**
   * When several columns feed the same bucket, the label holds the sum of the
   * last of them in column order; earlier matches are overwritten, not added.
   */
  lemma {:induction false} KpisLastWins(t: Table, k: Kpi, j: int)
    requires 0 <= j < |t| && Triggers(k, t[j].name)
    requires forall i :: j < i < |t| ==> !Triggers(k, t[i].name)
    ensures Label(k) in Kpis(t) && Kpis(t)[Label(k)] == Sum(t[j].values)
  {
    var p := t[..|t| - 1];
    ApplyLabel(Kpis(p), t[|t| - 1], k);
    if j < |t| - 1 {
      forall i | j < i < |p| ensures !Triggers(k, p[i].name) {
        assert p[i] == t[i];
      }
      assert p[j] == t[j];
      KpisLastWins(p, k, j);
    }
  }

  /** The map is empty exactly when no column name contains any keyword; in particular for a table with no columns. */
  lemma KpisEmpty(t: Table)
    ensures Kpis(t) == map[] <==> forall j, k :: 0 <= j < |t| ==> !Triggers(k, t[j].name)
    ensures t == [] ==> Kpis(t) == map[]
  {
    KpisKeys(t);
    forall k ensures Label(k) in Kpis(t) <==> exists j :: 0 <= j < |t| && Triggers(k, t[j].name) {
      KpisPresence(t, k);
    }
    assert Labels == {Label(Sales), Label(Profit), Label(Cost), Label(Quantity)};
  }

  /** Two columns whose names agree after lower-casing, and whose values agree, update a map alike. */
  lemma ApplyIgnoreCase(m: map<string, int>, c: Column, d: Column)
    requires Lower(c.name) == Lower(d.name) && c.values == d.values
    ensures Apply(m, c) == Apply(m, d)
  {
    assert forall k :: Triggers(k, c.name) == Triggers(k, d.name);
  }

  /**
   * Matching ignores case: two tables whose column names agree after
   * lower-casing, and whose values agree, give the same KPI map.
   */
  lemma {:induction false} KpisIgnoreCase(t: Table, u: Table)
    requires |t| == |u|
    requires forall j :: 0 <= j < |t| ==> Lower(t[j].name) == Lower(u[j].name) && t[j].values == u[j].values
    ensures Kpis(t) == Kpis(u)
  {
    if t != [] {
      var n := |t| - 1;
      var tp, up := t[..n], u[..n];
      forall j | 0 <= j < n
        ensures Lower(tp[j].name) == Lower(up[j].name) && tp[j].values == up[j].values
      {
        assert tp[j] == t[j] && up[j] == u[j];
      }
      KpisIgnoreCase(tp, up);
      ApplyIgnoreCase(Kpis(tp), t[n], u[n]);
    }
  }

  /** A keyword with a character that the name lacks does not occur in the name. */
  lemma MissingChar(s: string, k: string, c: char)
    requires c in k && c !in s
    ensures !Contains(s, k)
  {
    ContainsIff(s, k);
  }

  /** A keyword that occurs at some position is contained. */
  lemma Found(s: string, k: string, i: int)
    requires OccursAt(s, k, i)
    ensures Contains(s, k)
  {
    ContainsIff(s, k);
  }

  /** The table made of one column is that column applied to the empty map. */
  lemma KpisSingle(c: Column)
    ensures Kpis([c]) == Apply(map[], c)
  {
    assert [c][..0] == [];
  }

  /** The buckets a lower-case "revenue" name feeds: sales only. */
  lemma RevenueFeeds(s: string)
    requires s == "revenue"
    ensures Feeds(Sales, s) && !Feeds(Profit, s)
    ensures !Feeds(Cost, s) && !Feeds(Quantity, s)
  {
    Found(s, "revenue", 0);
    MissingChar(s, "sales", 's');
    MissingChar(s, "profit", 'p');
    MissingChar(s, "cost", 'c');
    MissingChar(s, "quantity", 'q');
    MissingChar(s, "qty", 'q');
  }

  /** A single column that feeds sales only gives exactly {"Total Sales": its sum}. */
  lemma KpisSalesOnly(c: Column)
    requires Triggers(Sales, c.name) && !Triggers(Profit, c.name)
    requires !Triggers(Cost, c.name) && !Triggers(Quantity, c.name)
    ensures Kpis([c]) == map[SalesLabel := Sum(c.values)]
  {
    KpisSingle(c);
  }

  /** "Revenue", "REVENUE" and "revenue" all feed "Total Sales" and nothing else. */
  lemma RevenueAnyCase(c: Column)
    requires c.name in {"Revenue", "REVENUE", "revenue"}
    ensures Kpis([c]) == map[SalesLabel := Sum(c.values)]
  {
    assert Lower(c.name) == "revenue";
    RevenueFeeds(Lower(c.name));
    KpisSalesOnly(c);
  }

  lemma TotalRevenueFeeds(s: string)
    requires s == "total revenue"
    ensures Feeds(Sales, s) && !Feeds(Profit, s)
    ensures !Feeds(Cost, s) && !Feeds(Quantity, s)
  {
    assert OccursAt(s, "revenue", 6);
    Found(s, "revenue", 6);
    MissingChar(s, "sales", 's');
    MissingChar(s, "profit", 'p');
    MissingChar(s, "cost", 'c');
    MissingChar(s, "quantity", 'q');
    MissingChar(s, "qty", 'q');
  }

  /** A column named "Total Revenue" with values 100, 200, 300 gives {"Total Sales": 600}. */
  lemma TotalRevenueExample(c: Column)
    requires c == Column("Total Revenue", true, [100, 200, 300])
    ensures Kpis([c]) == map[SalesLabel := 600]
  {
    assert Sum(c.values) == 600 by {
      assert c.values[..2] == [100, 200];
      assert [100, 200][..1] == [100];
      assert [100][..0] == [];
    }
    assert Lower(c.name) == "total revenue" by {
      assert c.name == "Total Revenue";
    }
    TotalRevenueFeeds(Lower(c.name));
    KpisSalesOnly(c);
  }

  /** The buckets a lower-case "cost" or "cost_total" name feeds: cost only. */
  lemma CostFeeds(s: string)
    requires s == "cost" || s == "cost_total"
    ensures Feeds(Cost, s) && !Feeds(Sales, s)
    ensures !Feeds(Profit, s) && !Feeds(Quantity, s)
  {
    assert OccursAt(s, "cost", 0);
    Found(s, "cost", 0);
    MissingChar(s, "sales", 'e');
    MissingChar(s, "revenue", 'r');
    MissingChar(s, "profit", 'p');
    MissingChar(s, "quantity", 'q');
    MissingChar(s, "qty", 'q');
  }

  /** Two columns that both feed cost only give exactly {"Total Cost": the second column's sum}. */
  lemma KpisCostOnlyPair(c0: Column, c1: Column)
    requires Triggers(Cost, c0.name) && !Triggers(Sales, c0.name)
    requires !Triggers(Profit, c0.name) && !Triggers(Quantity, c0.name)
    requires Triggers(Cost, c1.name) && !Triggers(Sales, c1.name)
    requires !Triggers(Profit, c1.name) && !Triggers(Quantity, c1.name)
    ensures Kpis([c0, c1]) == map[CostLabel := Sum(c1.values)]
  {
    KpisSingle(c0);
    assert [c0, c1][..1] == [c0];
  }

  /** Columns "Cost" = [10, 20] then "cost_total" = [5]: the later column wins, giving {"Total Cost": 5}. */
  lemma CostOverwriteExample(c0: Column, c1: Column)
    requires c0 == Column("Cost", true, [10, 20]) && c1 == Column("cost_total", true, [5])
    ensures Kpis([c0, c1]) == map[CostLabel := 5]
  {
    assert Sum(c1.values) == 5 by { assert c1.values[..0] == []; }
    assert Lower(c0.name) == "cost" by { assert c0.name == "Cost"; }
    assert Lower(c1.name) == "cost_total" by { assert c1.name == "cost_total"; }
    CostFeeds(Lower(c0.name));
    CostFeeds(Lower(c1.name));
    KpisCostOnlyPair(c0, c1);
  }

  lemma ProfitCostFeeds(s: string)
    requires s == "profit_cost"
    ensures Feeds(Profit, s) && Feeds(Cost, s)
    ensures !Feeds(Sales, s) && !Feeds(Quantity, s)
  {
    Found(s, "profit", 0);
    assert OccursAt(s, "cost", 7);
    Found(s, "cost", 7);
    MissingChar(s, "sales", 'a');
    MissingChar(s, "revenue", 'e');
    MissingChar(s, "quantity", 'q');
    MissingChar(s, "qty", 'q');
  }

  /** Because the four tests are separate, "profit_cost" sets both "Total Profit" and "Total Cost". */
  lemma ProfitCostExample(c: Column)
    requires c.name == "profit_cost"
    ensures Kpis([c]) == map[ProfitLabel := Sum(c.values), CostLabel := Sum(c.values)]
  {
    assert Lower(c.name) == "profit_cost";
    ProfitCostFeeds(Lower(c.name));
    KpisSingle(c);
  }

  // ---------------------------------------------------------------------------
  // Charts

  /** At most this many charts are made. */
  const MaxCharts := 3

  /**
   * `df.select_dtypes(include="number").columns`: the numeric columns' names, in
   * column order.  `NumericNamesAt` and `NumericNamesFrom` below pin down which
   * name sits at which position.
   */
  function NumericNames(t: Table): (r: seq<string>)
    ensures |r| <= |t|
  {
    if t == [] then []
    else NumericNames(t[..|t| - 1]) + (if t[|t| - 1].numeric then [t[|t| - 1].name] else [])
  }

  /** The title `f"{col} Distribution"` of the chart for column `name`. */
  function Title(name: string): string {
    name + " Distribution"
  }

  /** `auto_charts`: one chart per numeric column, for the first three numeric columns only. */
  method AutoCharts(t: Table) returns (charts: seq<string>)
    ensures |charts| == if |NumericNames(t)| < MaxCharts then |NumericNames(t)| else MaxCharts
    ensures forall i :: 0 <= i < |charts| ==> charts[i] == Title(NumericNames(t)[i])
  {
    charts := [];
    var numericCols := NumericNames(t);
    var n := if |numericCols| < MaxCharts then |numericCols| else MaxCharts;
    for i := 0 to n
      invariant |charts| == i
      invariant forall k :: 0 <= k < i ==> charts[k] == Title(numericCols[k])
    {
      charts := charts + [Title(numericCols[i])];
    }
  }

  /**
   * A numeric column at position j is the numeric name at position "number of
   * numeric columns before j".
   */
  lemma {:induction false} NumericNamesAt(t: Table, j: int)
    requires 0 <= j < |t| && t[j].numeric
    ensures |NumericNames(t[..j])| < |NumericNames(t)|
    ensures NumericNames(t)[|NumericNames(t[..j])|] == t[j].name
  {
    var p := t[..|t| - 1];
    if j == |t| - 1 {
      assert t[..j] == p;
    } else {
      assert p[..j] == t[..j] && p[j] == t[j];
      NumericNamesAt(p, j);
    }
  }

  /**
   * Conversely, every numeric name comes from a numeric column, the one with
   * exactly i numeric columns before it: non-numeric columns contribute nothing.
   */
  lemma {:induction false} NumericNamesFrom(t: Table, i: int)
    requires 0 <= i < |NumericNames(t)|
    ensures exists j :: 0 <= j < |t| && t[j].numeric && |NumericNames(t[..j])| == i
                        && NumericNames(t)[i] == t[j].name
  {
    var p := t[..|t| - 1];
    if i < |NumericNames(p)| {
      NumericNamesFrom(p, i);
      var j :| 0 <= j < |p| && p[j].numeric && |NumericNames(p[..j])| == i && NumericNames(p)[i] == p[j].name;
      assert p[..j] == t[..j] && p[j] == t[j];
    } else {
      assert t[..|t| - 1] == p;
    }
  }

  /** In a table whose columns are all numeric, the numeric names are all the names, in order. */
  lemma {:induction false} AllNumericNames(t: Table)
    requires forall j :: 0 <= j < |t| ==> t[j].numeric
    ensures |NumericNames(t)| == |t|
    ensures forall j :: 0 <= j < |t| ==> NumericNames(t)[j] == t[j].name
  {
    if t != [] {
      var p := t[..|t| - 1];
      forall j | 0 <= j < |p| ensures p[j].numeric { assert p[j] == t[j]; }
      AllNumericNames(p);
      forall j | 0 <= j < |p| ensures NumericNames(t)[j] == t[j].name { assert p[j] == t[j]; }
    }
  }

  /** A table with no numeric column has no numeric names, so `auto_charts` makes no chart. */
  lemma {:induction false} NoNumericNames(t: Table)
    requires forall j :: 0 <= j < |t| ==> !t[j].numeric
    ensures NumericNames(t) == []
  {
    if t != [] {
      var p := t[..|t| - 1];
      forall j | 0 <= j < |p| ensures !p[j].numeric { assert p[j] == t[j]; }
      NoNumericNames(p);
    }
  }
}
