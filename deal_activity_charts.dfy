/** A model of the computational core of the deal-activity chart widget:
    the aggregation of per-deal activity counters into three chart entries
    sorted by count, the total shown in the tooltips, and the bar/pie toggle. */
module DealActivityCharts {

  datatype Option<T> = None | Some(value: T)

  /** The `details` record of a deal. `None` stands for any falsy value of a
      field (absent, null, 0), all of which `field || 0` turns into 0. */
  datatype Details = Details(calls: Option<int>, meetings: Option<int>, emails: Option<int>)

  /** A deal as the chart sees it: only its `details`, which may be absent. */
  type Deal = Option<Details>

  /** The three counters of `activityCounts`, in their insertion order. */
  datatype Activity = Calls | Meetings | Emails

  /** The key under which an activity's counter is stored. */
  function Name(a: Activity): string {
    match a
    case Calls => "calls"
    case Meetings => "meetings"
    case Emails => "emails"
  }

  /** Position of an activity's key in the insertion order of `activityCounts`. */
  function Rank(a: Activity): nat {
    match a
    case Calls => 0
    case Meetings => 1
    case Emails => 2
  }

  /** `x || 0` on a numeric field. */
  function OrZero(x: Option<int>): int {
    match x
    case None => 0
    case Some(v) => v
  }

  function Field(d: Details, a: Activity): Option<int> {
    match a
    case Calls => d.calls
    case Meetings => d.meetings
    case Emails => d.emails
  }

  /** What one deal adds to the counter of `a`: nothing when it has no details. */
  function Contribution(deal: Deal, a: Activity): int {
    match deal
    case None => 0
    case Some(d) => OrZero(Field(d, a))
  }

  /** Specification of a counter: the sum over all deals of their contributions. */
  function Tally(deals: seq<Deal>, a: Activity): int {
    if deals == [] then 0 else Contribution(deals[0], a) + Tally(deals[1..], a)
  }

  /** Every field a deal actually supplies is non-negative. */
  predicate NonNegativeFields(deals: seq<Deal>) {
    forall i, a :: 0 <= i < |deals| ==> Contribution(deals[i], a) >= 0
  }

  lemma {:induction false} TallyAppend(xs: seq<Deal>, ys: seq<Deal>, a: Activity)
    ensures Tally(xs + ys, a) == Tally(xs, a) + Tally(ys, a)
  {
    if xs == [] {
      assert xs + ys == ys;
    } else {
      assert (xs + ys)[1..] == xs[1..] + ys;
      TallyAppend(xs[1..], ys, a);
    }
  }

  /** A deal without details leaves every counter as it was. */
  lemma SkipsDealWithoutDetails(deals: seq<Deal>, a: Activity)
    ensures Tally(deals + [None], a) == Tally(deals, a)
  {
    TallyAppend(deals, [None], a);
  }

  /** Appending a deal adds exactly its own fields (falsy ones as 0). */
  lemma AppendDeal(deals: seq<Deal>, d: Details, a: Activity)
    ensures Tally(deals + [Some(d)], a) == Tally(deals, a) + OrZero(Field(d, a))
  {
    TallyAppend(deals, [Some(d)], a);
  }

  lemma {:induction false} TallyNonNegative(deals: seq<Deal>, a: Activity)
    requires NonNegativeFields(deals)
    ensures Tally(deals, a) >= 0
  {
    if deals != [] {
      assert Contribution(deals[0], a) >= 0;
      assert NonNegativeFields(deals[1..]) by {
        forall i, b | 0 <= i < |deals[1..]| ensures Contribution(deals[1..][i], b) >= 0 {
          assert deals[1..][i] == deals[i + 1];
        }
      }
      TallyNonNegative(deals[1..], a);
    }
  }

  /** The `forEach` over the deals, updating the three counters in place. */
  method CountActivities(deals: seq<Deal>) returns (calls: int, meetings: int, emails: int)
    ensures calls == Tally(deals, Calls)
    ensures meetings == Tally(deals, Meetings)
    ensures emails == Tally(deals, Emails)
  {
    calls, meetings, emails := 0, 0, 0;
    for i := 0 to |deals|
      invariant calls == Tally(deals[..i], Calls)
      invariant meetings == Tally(deals[..i], Meetings)
      invariant emails == Tally(deals[..i], Emails)
    {
      assert deals[..i + 1] == deals[..i] + [deals[i]];
      match deals[i] {
        case Some(d) =>
          AppendDeal(deals[..i], d, Calls);
          AppendDeal(deals[..i], d, Meetings);
          AppendDeal(deals[..i], d, Emails);
          calls := calls + OrZero(d.calls);
          meetings := meetings + OrZero(d.meetings);
          emails := emails + OrZero(d.emails);
        case None =>
          SkipsDealWithoutDetails(deals[..i], Calls);
          SkipsDealWithoutDetails(deals[..i], Meetings);
          SkipsDealWithoutDetails(deals[..i], Emails);
      }
    }
    assert deals[..|deals|] == deals;
  }

  // ---------------------------------------------------------------------
  // Entries and their stable descending sort

  /** One `{ activity, count }` object of the chart data. */
  datatype Entry = Entry(activity: string, count: int)

  /** `Object.entries(activityCounts).map(...)`: the insertion order of the keys. */
  function Entries(calls: int, meetings: int, emails: int): seq<Entry> {
    [Entry(Name(Calls), calls), Entry(Name(Meetings), meetings), Entry(Name(Emails), emails)]
  }

  predicate SortedDesc(s: seq<Entry>) {
    forall i, j :: 0 <= i < j < |s| ==> s[i].count >= s[j].count
  }

  /** Inserts `x`, which came before every element of `s`, in front of the
      first element whose count does not exceed its own. */
  function Insert(x: Entry, s: seq<Entry>): seq<Entry> {
    if s == [] then [x]
    else if x.count >= s[0].count then [x] + s
    else [s[0]] + Insert(x, s[1..])
  }

  /** `sort((a, b) => b.count - a.count)`: a stable sort, largest count first. */
  function SortByCountDesc(s: seq<Entry>): seq<Entry> {
    if s == [] then [] else Insert(s[0], SortByCountDesc(s[1..]))
  }

  /** The subsequence of the entries whose count is `k`. */
  function WithCount(s: seq<Entry>, k: int): seq<Entry> {
    if s == [] then []
    else (if s[0].count == k then [s[0]] else []) + WithCount(s[1..], k)
  }

  lemma {:induction false} InsertPermutation(x: Entry, s: seq<Entry>)
    ensures multiset(Insert(x, s)) == multiset(s) + multiset{x}
  {
    if s != [] && x.count < s[0].count {
      assert s == [s[0]] + s[1..];
      InsertPermutation(x, s[1..]);
    }
  }

  /** Inserting an entry whose count is at most `bound` into entries whose
      counts are at most `bound` keeps every count at most `bound`. */
  lemma {:induction false} InsertBounded(x: Entry, s: seq<Entry>, bound: int)
    requires x.count <= bound
    requires forall i :: 0 <= i < |s| ==> s[i].count <= bound
    ensures forall i :: 0 <= i < |Insert(x, s)| ==> Insert(x, s)[i].count <= bound
  {
    if s != [] && x.count < s[0].count {
      InsertBounded(x, s[1..], bound);
    }
  }

  lemma {:induction false} InsertSorted(x: Entry, s: seq<Entry>)
    requires SortedDesc(s)
    ensures SortedDesc(Insert(x, s))
  {
    if s != [] && x.count < s[0].count {
      InsertSorted(x, s[1..]);
      InsertBounded(x, s[1..], s[0].count);
    }
  }

  /** The sort's result is ordered by count, largest first, and only reorders. */
  lemma {:induction false} SortSortedPermutation(s: seq<Entry>)
    ensures SortedDesc(SortByCountDesc(s))
    ensures multiset(SortByCountDesc(s)) == multiset(s)
  {
    if s != [] {
      SortSortedPermutation(s[1..]);
      InsertSorted(s[0], SortByCountDesc(s[1..]));
      InsertPermutation(s[0], SortByCountDesc(s[1..]));
      assert s == [s[0]] + s[1..];
    }
  }

  lemma {:induction false} WithCountAppend(s: seq<Entry>, t: seq<Entry>, k: int)
    ensures WithCount(s + t, k) == WithCount(s, k) + WithCount(t, k)
  {
    if s == [] {
      assert s + t == t;
    } else {
      assert (s + t)[1..] == s[1..] + t;
      WithCountAppend(s[1..], t, k);
    }
  }

  lemma {:induction false} InsertStable(x: Entry, s: seq<Entry>, k: int)
    ensures WithCount(Insert(x, s), k) == WithCount([x], k) + WithCount(s, k)
  {
    if s != [] {
      var t := s[1..];
      assert s == [s[0]] + t;
      WithCountAppend([s[0]], t, k);
      if x.count >= s[0].count {
        WithCountAppend([x], s, k);
      } else {
        InsertStable(x, t, k);
        WithCountAppend([s[0]], Insert(x, t), k);
        assert WithCount([x], k) == [] || WithCount([s[0]], k) == [];
      }
    }
  }

  /** Stability: the entries of any one count keep their original order. */
  lemma {:induction false} SortStable(s: seq<Entry>, k: int)
    ensures WithCount(SortByCountDesc(s), k) == WithCount(s, k)
  {
    if s != [] {
      SortStable(s[1..], k);
      InsertStable(s[0], SortByCountDesc(s[1..]), k);
      assert s == [s[0]] + s[1..];
      WithCountAppend([s[0]], s[1..], k);
    }
  }

  /** The sort of three entries spelled out as a decision tree. */
  lemma SortThree(e1: Entry, e2: Entry, e3: Entry)
    ensures SortByCountDesc([e1, e2, e3]) ==
      if e2.count >= e3.count then
        (if e1.count >= e2.count then [e1, e2, e3]
         else if e1.count >= e3.count then [e2, e1, e3]
         else [e2, e3, e1])
      else
        (if e1.count >= e3.count then [e1, e3, e2]
         else if e1.count >= e2.count then [e3, e1, e2]
         else [e3, e2, e1])
  {
    assert [e1, e2, e3][1..] == [e2, e3];
    assert [e2, e3][1..] == [e3];
    assert [e3][1..] == [];
    assert SortByCountDesc([e3]) == [e3];
    var t := Insert(e2, [e3]);
    assert Insert(e2, []) == [e2];
    assert t == if e2.count >= e3.count then [e2, e3] else [e3, e2];
    assert SortByCountDesc([e1, e2, e3]) == Insert(e1, t);
    assert [t[0], t[1]][1..] == [t[1]];
    assert t == [t[0], t[1]];
    assert Insert(e1, [t[1]]) == if e1.count >= t[1].count then [e1, t[1]] else [t[1], e1];
  }

  // ---------------------------------------------------------------------
  // getActivityData and totalActivities

  /** Specification of `getActivityData()`. */
  function ActivityData(deals: seq<Deal>): seq<Entry> {
    SortByCountDesc(Entries(Tally(deals, Calls), Tally(deals, Meetings), Tally(deals, Emails)))
  }

  /** `getActivityData()`: count, turn the counters into entries, sort. */
  method GetActivityData(deals: seq<Deal>) returns (data: seq<Entry>)
    ensures data == ActivityData(deals)
    ensures |data| == 3 && SortedDesc(data)
    ensures forall a :: Entry(Name(a), Tally(deals, a)) in data
  {
    var calls, meetings, emails := CountActivities(deals);
    data := SortByCountDesc(Entries(calls, meetings, emails));
    ActivityDataSortedPermutation(deals);
    ActivityDataNames(deals);
  }

  /** The chart data holds exactly three entries, ordered by count, and is a
      reordering of the unsorted entries. */
  lemma ActivityDataSortedPermutation(deals: seq<Deal>)
    ensures var r := ActivityData(deals);
      && |r| == 3
      && SortedDesc(r)
      && multiset(r) == multiset(Entries(Tally(deals, Calls), Tally(deals, Meetings), Tally(deals, Emails)))
  {
    var e := Entries(Tally(deals, Calls), Tally(deals, Meetings), Tally(deals, Emails));
    SortSortedPermutation(e);
    assert |multiset(ActivityData(deals))| == 3;
  }

  /** Each activity appears exactly once and keeps its own total. */
  lemma ActivityDataNames(deals: seq<Deal>)
    ensures var r := ActivityData(deals);
      && (forall a :: Entry(Name(a), Tally(deals, a)) in r)
      && (forall i, j :: 0 <= i < j < |r| ==> r[i].activity != r[j].activity)
      && (forall i, a :: 0 <= i < |r| && r[i].activity == Name(a) ==> r[i].count == Tally(deals, a))
  {
    var e := Entries(Tally(deals, Calls), Tally(deals, Meetings), Tally(deals, Emails));
    SortThree(e[0], e[1], e[2]);
    assert e == [e[0], e[1], e[2]];
  }

  /** Entries with equal counts stay in the insertion order calls, meetings, emails. */
  lemma ActivityDataTies(deals: seq<Deal>)
    ensures var r := ActivityData(deals);
      forall i, j, a, b ::
        0 <= i < j < |r| && r[i].count == r[j].count && r[i].activity == Name(a) && r[j].activity == Name(b)
        ==> Rank(a) < Rank(b)
  {
    var e := Entries(Tally(deals, Calls), Tally(deals, Meetings), Tally(deals, Emails));
    SortThree(e[0], e[1], e[2]);
    assert e == [e[0], e[1], e[2]];
  }

  /** The left-to-right `reduce((sum, item) => sum + item.count, 0)`. */
  function TotalActivities(data: seq<Entry>): int {
    if data == [] then 0 else TotalActivities(data[..|data| - 1]) + data[|data| - 1].count
  }

  lemma {:induction false} TotalAppend(s: seq<Entry>, t: seq<Entry>)
    ensures TotalActivities(s + t) == TotalActivities(s) + TotalActivities(t)
  {
    if t != [] {
      var u := t[..|t| - 1];
      assert (s + t)[..|s + t| - 1] == s + u;
      assert (s + t)[|s + t| - 1] == t[|t| - 1];
      TotalAppend(s, u);
    } else {
      assert s + t == s;
    }
  }

  lemma {:induction false} InsertKeepsTotal(x: Entry, s: seq<Entry>)
    ensures TotalActivities(Insert(x, s)) == x.count + TotalActivities(s)
  {
    if s != [] {
      var t := s[1..];
      assert s == [s[0]] + t;
      TotalAppend([s[0]], t);
      assert TotalActivities([s[0]]) == s[0].count;
      assert TotalActivities([x]) == x.count;
      if x.count >= s[0].count {
        TotalAppend([x], s);
      } else {
        InsertKeepsTotal(x, t);
        TotalAppend([s[0]], Insert(x, t));
      }
    } else {
      assert TotalActivities([x]) == x.count;
    }
  }

  /** Sorting does not change the sum of the counts. */
  lemma {:induction false} SortKeepsTotal(s: seq<Entry>)
    ensures TotalActivities(SortByCountDesc(s)) == TotalActivities(s)
  {
    if s != [] {
      SortKeepsTotal(s[1..]);
      InsertKeepsTotal(s[0], SortByCountDesc(s[1..]));
      assert s == [s[0]] + s[1..];
      TotalAppend([s[0]], s[1..]);
      assert TotalActivities([s[0]]) == s[0].count;
    }
  }

  /** What one deal adds to the total of all three counters. */
  function DealActivities(deal: Deal): int {
    Contribution(deal, Calls) + Contribution(deal, Meetings) + Contribution(deal, Emails)
  }

  /** The sum over all deals of calls + meetings + emails. */
  function DealsTotal(deals: seq<Deal>): int {
    if deals == [] then 0 else DealActivities(deals[0]) + DealsTotal(deals[1..])
  }

  lemma {:induction false} DealsTotalIsSumOfTallies(deals: seq<Deal>)
    ensures DealsTotal(deals) == Tally(deals, Calls) + Tally(deals, Meetings) + Tally(deals, Emails)
  {
    if deals != [] {
      DealsTotalIsSumOfTallies(deals[1..]);
    }
  }

  /** `totalActivities` is the sum of the three counts, and the sum over all
      deals with details of their calls, meetings and emails. */
  lemma TotalActivitiesCorrect(deals: seq<Deal>)
    ensures TotalActivities(ActivityData(deals))
      == Tally(deals, Calls) + Tally(deals, Meetings) + Tally(deals, Emails)
    ensures TotalActivities(ActivityData(deals)) == DealsTotal(deals)
  {
    var e := Entries(Tally(deals, Calls), Tally(deals, Meetings), Tally(deals, Emails));
    SortKeepsTotal(e);
    assert e[..2][..1] == [e[0]];
    assert e[..2] == [e[0], e[1]];
    assert e[..|e| - 1] == e[..2];
    assert TotalActivities([]) == 0;
    DealsTotalIsSumOfTallies(deals);
  }

  /** With no negative field anywhere the total is non-negative. */
  lemma TotalActivitiesNonNegative(deals: seq<Deal>)
    requires NonNegativeFields(deals)
    ensures TotalActivities(ActivityData(deals)) >= 0
  {
    TotalActivitiesCorrect(deals);
    TallyNonNegative(deals, Calls);
    TallyNonNegative(deals, Meetings);
    TallyNonNegative(deals, Emails);
  }

  /** No deals: every count is 0 and so is the total. */
  lemma NoDealsNoActivities()
    ensures ActivityData([]) == [Entry("calls", 0), Entry("meetings", 0), Entry("emails", 0)]
    ensures TotalActivities(ActivityData([])) == 0
  {
    TotalActivitiesCorrect([]);
    SortThree(Entry("calls", 0), Entry("meetings", 0), Entry("emails", 0));
  }

  // ---------------------------------------------------------------------
  // The bar/pie toggle

  /** `chartType === "bar" ? "pie" : "bar"`. */
  function NextChartType(chartType: string): string {
    if chartType == "bar" then "pie" else "bar"
  }

  predicate IsChartType(chartType: string) {
    chartType == "bar" || chartType == "pie"
  }

  /** Every toggle lands on a chart type and flips one that was valid. */
  lemma ToggleFlips(chartType: string)
    ensures IsChartType(NextChartType(chartType))
    ensures IsChartType(chartType) ==> NextChartType(chartType) != chartType
  {
  }

  /** Toggling twice restores the chart type. */
  lemma ToggleInvolution(chartType: string)
    requires IsChartType(chartType)
    ensures NextChartType(NextChartType(chartType)) == chartType
  {
  }

  /** The chart type after `n` toggles. */
  function Toggled(chartType: string, n: nat): string {
    if n == 0 then chartType else NextChartType(Toggled(chartType, n - 1))
  }

  /** From the initial "bar", an even number of toggles shows the bar chart
      and an odd number the pie chart. */
  lemma {:induction false} ToggledParity(n: nat)
    ensures Toggled("bar", n) == if n % 2 == 0 then "bar" else "pie"
  {
    if n > 0 {
      ToggledParity(n - 1);
    }
  }

  /** The component's UI state that the toggle changes. */
  class ActivityChart {
    var chartType: string

    /** `useState("bar")`. */
    constructor ()
      ensures chartType == "bar"
    {
      chartType := "bar";
    }

    /** `handleChartToggle`. */
    method HandleChartToggle()
      modifies this
      ensures chartType == NextChartType(old(chartType))
      ensures IsChartType(chartType)
      ensures IsChartType(old(chartType)) ==> chartType != old(chartType)
    {
      chartType := NextChartType(chartType);
    }
  }
}
