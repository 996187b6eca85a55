/**
 * The expense breakdown chart: expenses grouped by category into per-category
 * sums, the groups sorted by sum from largest to smallest, and one percentage
 * interval per group laid end to end around the pie.
 */
module Breakdown {
  import opened LedgerTypes
  import opened Summary

  /** One entry of the grouping object: a category and its summed expense. */
  datatype Group = Group(category: string, total: real)

  /** One colour stop of the pie: the category and its [start, end] interval in percent. */
  datatype Stop = Stop(category: string, start: real, end: real)

  /** What the chart is drawn from: the total in its centre, the sorted groups and their stops. */
  datatype Chart = Chart(total: real, groups: seq<Group>, stops: seq<Stop>)

  predicate Distinct(cs: seq<string>)
  {
    forall i, j :: 0 <= i < j < |cs| ==> cs[i] != cs[j]
  }

  /**
   * The categories of `es` in the order they first appear: the key order of
   * the grouping object, whose keys are added the first time a category is met.
   */
  function Categories(es: seq<Transaction>): (cs: seq<string>)
    ensures Distinct(cs)
  {
    if es == [] then []
    else
      var init := es[..|es| - 1];
      var c := es[|es| - 1].category;
      var cs := Categories(init);
      if c in cs then cs else cs + [c]
  }

  /** The key order lists a category exactly when some expense has it. */
  lemma {:induction false} CategoriesCover(es: seq<Transaction>, c: string)
    ensures c in Categories(es) <==> exists i :: 0 <= i < |es| && es[i].category == c
  {
    if es != [] {
      var init := es[..|es| - 1];
      CategoriesCover(init, c);
      if c == es[|es| - 1].category {
        assert es[|es| - 1].category == c;
      } else if exists i :: 0 <= i < |es| && es[i].category == c {
        var i :| 0 <= i < |es| && es[i].category == c;
        assert init[i].category == c;
      }
    }
  }

  /** The sum of the amounts of the entries of `es` in category `c`, added first to last. */
  function CategoryTotal(es: seq<Transaction>, c: string): real
  {
    if es == [] then 0.0
    else CategoryTotal(es[..|es| - 1], c) + (if es[|es| - 1].category == c then es[|es| - 1].amount else 0.0)
  }

  /** The groups for the categories `cs`, in that order, each with its sum over `es`. */
  function EntriesOf(cs: seq<string>, es: seq<Transaction>): (gs: seq<Group>)
    ensures |gs| == |cs|
    ensures forall i :: 0 <= i < |cs| ==> gs[i] == Group(cs[i], CategoryTotal(es, cs[i]))
  {
    if cs == [] then []
    else EntriesOf(cs[..|cs| - 1], es) + [Group(cs[|cs| - 1], CategoryTotal(es, cs[|cs| - 1]))]
  }

  /** The entries of the grouping object of `es`, in key order. */
  function Entries(es: seq<Transaction>): seq<Group>
  {
    EntriesOf(Categories(es), es)
  }

  /** The sum of the group totals, added first to last. */
  function GroupSum(gs: seq<Group>): real
  {
    if gs == [] then 0.0 else GroupSum(gs[..|gs| - 1]) + gs[|gs| - 1].total
  }

  // ---------------------------------------------------------------------------
  // Grouping

  /**
   * The grouping loop: for each expense, add its amount to the running sum of
   * its category, creating the key (at the end of the key order) when the
   * category is new. Returns the object's values and its keys in order.
   */
  method GroupByCategory(es: seq<Transaction>) returns (totals: map<string, real>, keys: seq<string>)
    ensures keys == Categories(es)
    ensures forall c :: c in totals <==> c in keys
    ensures forall c :: c in totals ==> totals[c] == CategoryTotal(es, c)
  {
    totals, keys := map[], [];
    var i := 0;
    while i < |es|
      invariant 0 <= i <= |es|
      invariant keys == Categories(es[..i])
      invariant forall c :: c in totals <==> c in keys
      invariant forall c :: c in totals ==> totals[c] == CategoryTotal(es[..i], c)
    {
      var t := es[i];
      ghost var done := es[..i + 1];
      assert done[..i] == es[..i] && done[i] == t;
      assert Categories(done) == if t.category in keys then keys else keys + [t.category];
      assert forall c :: (CategoryTotal(done, c)
        == CategoryTotal(es[..i], c) + (if t.category == c then t.amount else 0.0));
      var prior := if t.category in totals then totals[t.category] else 0.0;
      if t.category !in totals {
        CategoryTotalAbsent(es[..i], t.category);
        keys := keys + [t.category];
      }
      totals := totals[t.category := prior + t.amount];
      i := i + 1;
    }
    assert es[..|es|] == es;
  }

  /** A category that never occurs sums to zero. */
  lemma {:induction false} CategoryTotalAbsent(es: seq<Transaction>, c: string)
    requires c !in Categories(es)
    ensures CategoryTotal(es, c) == 0.0
  {
    if es != [] {
      CategoryTotalAbsent(es[..|es| - 1], c);
    }
  }

  /** With positive amounts every category that occurs has a positive sum. */
  lemma {:induction false} CategoryTotalPositive(es: seq<Transaction>, c: string)
    requires PositiveAmounts(es)
    ensures CategoryTotal(es, c) >= 0.0
    ensures c in Categories(es) ==> CategoryTotal(es, c) > 0.0
  {
    if es != [] {
      CategoryTotalPositive(es[..|es| - 1], c);
    }
  }

  /** Appending one expense raises the sum over distinct categories `cs` by its amount exactly when its category is among them. */
  lemma {:induction false} GroupSumExtend(cs: seq<string>, es: seq<Transaction>, t: Transaction)
    requires Distinct(cs)
    ensures GroupSum(EntriesOf(cs, es + [t]))
         == GroupSum(EntriesOf(cs, es)) + (if t.category in cs then t.amount else 0.0)
  {
    if cs != [] {
      var init, c := cs[..|cs| - 1], cs[|cs| - 1];
      GroupSumExtend(init, es, t);
      assert (es + [t])[..|es|] == es;
      assert cs == init + [c];
      assert t.category in cs <==> t.category in init || t.category == c;
      assert t.category == c ==> t.category !in init;
    }
  }

  /**
   * The grouping conserves the expense: the per-category sums add up to the
   * sum of all the amounts.
   */
  lemma {:induction false} GroupingConserves(es: seq<Transaction>)
    ensures GroupSum(Entries(es)) == Total(es)
  {
    if es != [] {
      var init, t := es[..|es| - 1], es[|es| - 1];
      assert es == init + [t];
      GroupingConserves(init);
      var cs := Categories(init);
      GroupSumExtend(cs, init, t);
      assert Total(es) == Total(init) + t.amount;
      if t.category in cs {
        assert Categories(es) == cs;
      } else {
        var c := t.category;
        assert Categories(es) == cs + [c];
        CategoryTotalAbsent(init, c);
        assert CategoryTotal(es, c) == t.amount;
        assert (cs + [c])[..|cs|] == cs;
        assert Entries(es) == EntriesOf(cs, es) + [Group(c, t.amount)];
        assert GroupSum(Entries(es)) == GroupSum(EntriesOf(cs, es)) + t.amount;
      }
    }
  }

  // ---------------------------------------------------------------------------
  // Sorting

  /** Sums from largest to smallest. */
  predicate NonIncreasing(gs: seq<Group>)
  {
    forall i, j :: 0 <= i < j < |gs| ==> gs[i].total >= gs[j].total
  }

  /** Places `g` in front of the first group whose sum is not larger than its own. */
  function InsertByTotal(g: Group, s: seq<Group>): (r: seq<Group>)
    ensures |r| == |s| + 1
    ensures r[0] == g || (s != [] && r[0] == s[0])
  {
    if s == [] || g.total >= s[0].total then [g] + s
    else [s[0]] + InsertByTotal(g, s[1..])
  }

  /** Inserting adds `g` and loses nothing. */
  lemma {:induction false} InsertPermutes(g: Group, s: seq<Group>)
    ensures multiset(InsertByTotal(g, s)) == multiset(s) + multiset{g}
  {
    if s != [] && g.total < s[0].total {
      InsertPermutes(g, s[1..]);
      assert s == [s[0]] + s[1..];
    }
  }

  /** Inserting into groups sorted from largest to smallest keeps them sorted. */
  lemma {:induction false} InsertSorted(g: Group, s: seq<Group>)
    requires NonIncreasing(s)
    ensures NonIncreasing(InsertByTotal(g, s))
  {
    if s != [] && g.total < s[0].total {
      var tail := InsertByTotal(g, s[1..]);
      InsertSorted(g, s[1..]);
      var r := [s[0]] + tail;
      assert r[1] == tail[0];
      forall j | 0 < j < |r| ensures r[0].total >= r[j].total {
        assert tail[0].total >= r[j].total;
      }
    }
  }

  /**
   * The sort of the grouped entries by descending sum. The comparison is the
   * difference of the sums, and entries with equal sums keep their relative
   * order (the sort is stable).
   */
  function SortByTotal(gs: seq<Group>): (r: seq<Group>)
    ensures |r| == |gs|
    ensures multiset(r) == multiset(gs)
    ensures NonIncreasing(r)
  {
    if gs == [] then []
    else
      var rest := SortByTotal(gs[1..]);
      InsertPermutes(gs[0], rest);
      InsertSorted(gs[0], rest);
      assert gs == [gs[0]] + gs[1..];
      InsertByTotal(gs[0], rest)
  }

  /** The groups whose sum is `v`, in order. */
  function WithTotal(gs: seq<Group>, v: real): seq<Group>
  {
    if gs == [] then []
    else (if gs[0].total == v then [gs[0]] else []) + WithTotal(gs[1..], v)
  }

  /** Inserting puts `g` ahead of every group with the same sum. */
  lemma {:induction false} InsertKeepsTies(g: Group, s: seq<Group>, v: real)
    ensures WithTotal(InsertByTotal(g, s), v) == (if g.total == v then [g] else []) + WithTotal(s, v)
  {
    if s == [] || g.total >= s[0].total {
      assert ([g] + s)[1..] == s;
    } else {
      InsertKeepsTies(g, s[1..], v);
      assert ([s[0]] + InsertByTotal(g, s[1..]))[1..] == InsertByTotal(g, s[1..]);
    }
  }

  /** The sort is stable: for every sum, the groups with that sum appear in their original order. */
  lemma {:induction false} SortIsStable(gs: seq<Group>, v: real)
    ensures WithTotal(SortByTotal(gs), v) == WithTotal(gs, v)
  {
    if gs != [] {
      SortIsStable(gs[1..], v);
      InsertKeepsTies(gs[0], SortByTotal(gs[1..]), v);
    }
  }

  /** Adding a group in front adds its sum. */
  lemma {:induction false} GroupSumPrepend(g: Group, s: seq<Group>)
    ensures GroupSum([g] + s) == g.total + GroupSum(s)
  {
    if s != [] {
      var init := s[..|s| - 1];
      assert ([g] + s)[..|s|] == [g] + init;
      GroupSumPrepend(g, init);
    }
  }

  lemma {:induction false} GroupSumInsert(g: Group, s: seq<Group>)
    ensures GroupSum(InsertByTotal(g, s)) == g.total + GroupSum(s)
  {
    if s == [] || g.total >= s[0].total {
      GroupSumPrepend(g, s);
    } else {
      GroupSumInsert(g, s[1..]);
      GroupSumPrepend(s[0], InsertByTotal(g, s[1..]));
      GroupSumPrepend(s[0], s[1..]);
      assert s == [s[0]] + s[1..];
    }
  }

  /** Sorting does not change the sum of the groups. */
  lemma {:induction false} GroupSumSort(gs: seq<Group>)
    ensures GroupSum(SortByTotal(gs)) == GroupSum(gs)
  {
    if gs != [] {
      GroupSumSort(gs[1..]);
      GroupSumInsert(gs[0], SortByTotal(gs[1..]));
      GroupSumPrepend(gs[0], gs[1..]);
      assert gs == [gs[0]] + gs[1..];
    }
  }

  /**
   * Any reordering of the grouped entries still pairs each category with its
   * own sum, and with positive amounts every sum is positive.
   */
  lemma SortedGroupsAreCategorySums(es: seq<Transaction>, groups: seq<Group>)
    requires PositiveAmounts(es)
    requires multiset(groups) == multiset(Entries(es))
    ensures forall i :: 0 <= i < |groups| ==>
      groups[i].total == CategoryTotal(es, groups[i].category) && groups[i].total > 0.0
  {
    var entries := Entries(es);
    var cs := Categories(es);
    forall i | 0 <= i < |groups|
      ensures groups[i].total == CategoryTotal(es, groups[i].category) && groups[i].total > 0.0
    {
      assert groups[i] in multiset(entries);
      var j :| 0 <= j < |entries| && entries[j] == groups[i];
      CategoryTotalPositive(es, cs[j]);
    }
  }

  /**
   * `groups` is the grouping of `es` sorted for the chart: a permutation of
   * the grouped entries, from largest to smallest sum, ties in key order,
   * each category paired with its own positive sum.
   */
  ghost predicate SortedBreakdown(groups: seq<Group>, es: seq<Transaction>)
  {
    && multiset(groups) == multiset(Entries(es))
    && NonIncreasing(groups)
    && (forall v :: WithTotal(groups, v) == WithTotal(Entries(es), v))
    && (forall i :: 0 <= i < |groups| ==>
          groups[i].total == CategoryTotal(es, groups[i].category) && groups[i].total > 0.0)
  }

  /** Sorting the grouped entries of expenses with positive amounts gives their sorted breakdown. */
  lemma SortGivesBreakdown(es: seq<Transaction>)
    requires PositiveAmounts(es)
    ensures SortedBreakdown(SortByTotal(Entries(es)), es)
  {
    var entries := Entries(es);
    forall v ensures WithTotal(SortByTotal(entries), v) == WithTotal(entries, v) {
      SortIsStable(entries, v);
    }
    SortedGroupsAreCategorySums(es, SortByTotal(entries));
  }

  // ---------------------------------------------------------------------------
  // Percentage intervals

  /** The share of `part` in `whole`, in percent. */
  function Percent(part: real, whole: real): real
    requires whole != 0.0
  {
    part / whole * 100.0
  }

  lemma PercentAdd(a: real, b: real, whole: real)
    requires whole != 0.0
    ensures Percent(a, whole) + Percent(b, whole) == Percent(a + b, whole)
  {
  }

  /** A positive part of a positive whole has a positive share, and the whole is 100 percent of itself. */
  lemma PercentBounds(part: real, whole: real)
    requires whole > 0.0
    ensures part > 0.0 ==> Percent(part, whole) > 0.0
    ensures Percent(whole, whole) == 100.0
  {
  }

  /** The stop of group `i`: from the share of the groups before it to the share including it. */
  function CumulativeStop(groups: seq<Group>, i: nat, total: real): Stop
    requires i < |groups| && total != 0.0
  {
    Stop(groups[i].category, Percent(GroupSum(groups[..i]), total), Percent(GroupSum(groups[..i + 1]), total))
  }

  /**
   * The stop loop: each group gets the interval from the share accumulated so
   * far to that share plus its own, and the accumulated share then advances.
   */
  method Intervals(groups: seq<Group>, total: real) returns (stops: seq<Stop>)
    requires total != 0.0
    ensures |stops| == |groups|
    ensures forall i :: 0 <= i < |groups| ==>
      && stops[i].category == groups[i].category
      && stops[i].end == stops[i].start + Percent(groups[i].total, total)
    ensures |stops| > 0 ==> stops[0].start == 0.0
    ensures forall i :: 0 < i < |stops| ==> stops[i].start == stops[i - 1].end
    ensures |stops| > 0 ==> stops[|stops| - 1].end == Percent(GroupSum(groups), total)
  {
    var accumulated := 0.0;
    stops := [];
    var i := 0;
    while i < |groups|
      invariant 0 <= i <= |groups| && |stops| == i
      invariant accumulated == Percent(GroupSum(groups[..i]), total)
      invariant forall j :: 0 <= j < i ==> stops[j] == CumulativeStop(groups, j, total)
    {
      var pct := Percent(groups[i].total, total);
      assert groups[..i + 1][..i] == groups[..i];
      PercentAdd(GroupSum(groups[..i]), groups[i].total, total);
      stops := stops + [Stop(groups[i].category, accumulated, accumulated + pct)];
      accumulated := accumulated + pct;
      i := i + 1;
    }
    assert groups[..|groups|] == groups;
    forall i | 0 <= i < |groups|
      ensures stops[i].end == stops[i].start + Percent(groups[i].total, total)
    {
      assert groups[..i + 1][..i] == groups[..i];
      PercentAdd(GroupSum(groups[..i]), groups[i].total, total);
    }
  }

  /**
   * The stops of `groups` cover the pie: one per group, in order, each as wide
   * as the group's share of `total` and of positive width, laid end to end
   * from 0 to 100 percent.
   */
  ghost predicate CoversPie(stops: seq<Stop>, groups: seq<Group>, total: real)
    requires total != 0.0
  {
    && |stops| == |groups| > 0
    && (forall i :: 0 <= i < |stops| ==>
          && stops[i].category == groups[i].category
          && stops[i].start < stops[i].end
          && stops[i].end - stops[i].start == Percent(groups[i].total, total))
    && stops[0].start == 0.0
    && (forall i :: 0 < i < |stops| ==> stops[i].start == stops[i - 1].end)
    && stops[|stops| - 1].end == 100.0
  }

  /**
   * Stops laid out by the stop loop over groups with positive sums, ending at
   * the share of the whole total, cover the pie.
   */
  lemma StopsCoverPie(groups: seq<Group>, stops: seq<Stop>, total: real)
    requires total > 0.0 && |groups| > 0
    requires forall i :: 0 <= i < |groups| ==> groups[i].total > 0.0
    requires |stops| == |groups|
    requires forall i :: 0 <= i < |groups| ==>
      stops[i].category == groups[i].category && stops[i].end == stops[i].start + Percent(groups[i].total, total)
    requires stops[0].start == 0.0
    requires forall i :: 0 < i < |stops| ==> stops[i].start == stops[i - 1].end
    requires stops[|stops| - 1].end == Percent(total, total)
    ensures CoversPie(stops, groups, total)
  {
    PercentBounds(total, total);
  }

  // ---------------------------------------------------------------------------
  // The whole chart

  /**
   * What the chart drawn from the expenses `es` shows: the total of all
   * expenses, the grouped sums reordered from largest to smallest, and stops
   * for those groups that cover the pie.
   */
  ghost predicate Describes(chart: Chart, es: seq<Transaction>)
  {
    && chart.total == Total(es) > 0.0
    && SortedBreakdown(chart.groups, es)
    && CoversPie(chart.stops, chart.groups, chart.total)
  }

  /**
   * The part of the chart drawing that runs once there is an expense: the
   * grouping loop, the sum of the grouped values, the sort and the stop loop.
   */
  method BuildChart(expenses: seq<Transaction>) returns (chart: Chart)
    requires expenses != [] && PositiveAmounts(expenses)
    ensures Describes(chart, expenses)
  {
    var totals, keys := GroupByCategory(expenses);
    var entries := seq(|keys|, i requires 0 <= i < |keys| => Group(keys[i], totals[keys[i]]));
    assert entries == Entries(expenses) by {
      var expected := Entries(expenses);
      assert |entries| == |expected|;
      forall i | 0 <= i < |entries| ensures entries[i] == expected[i] {
        assert keys[i] in totals;
      }
    }

    var totalExpense := GroupSum(entries);
    GroupingConserves(expenses);
    TotalPositive(expenses);

    var sorted := SortByTotal(entries);
    GroupSumSort(entries);
    SortGivesBreakdown(expenses);
    assert forall i :: 0 <= i < |sorted| ==> sorted[i].total > 0.0;

    var stops := Intervals(sorted, totalExpense);
    StopsCoverPie(sorted, stops, totalExpense);
    chart := Chart(totalExpense, sorted, stops);
  }

  /**
   * The chart of a ledger: nothing when it holds no expense, otherwise the
   * chart of its expenses, whose total is the expense card's figure.
   */
  method RenderChart(ts: seq<Transaction>) returns (chart: Option<Chart>)
    requires PositiveAmounts(ts)
    ensures chart.None? <==> OfKind(ts, Expense) == []
    ensures chart.Some? ==> chart.value.total == Summarize(ts).expense
    ensures chart.Some? ==> Describes(chart.value, OfKind(ts, Expense))
  {
    var expenses := OfKind(ts, Expense);
    if |expenses| == 0 {
      return None;
    }
    OfKindMembers(ts, Expense);
    assert PositiveAmounts(expenses) by {
      forall i | 0 <= i < |expenses| ensures expenses[i].amount > 0.0 {
        assert expenses[i] in expenses;
      }
    }
    var c := BuildChart(expenses);
    chart := Some(c);
  }
}
