# Deal activity chart — verified model

This project models the computation behind the activity chart of the
property-listing front end (`ActivityChart` in
`src/components/Analytics/DealActivityCharts.jsx`):

- `getActivityData` walks the deals passed in as props. For every deal that has
  `details` it adds `details.calls || 0`, `details.meetings || 0` and
  `details.emails || 0` to three counters. It then turns the counters into
  `{ activity, count }` entries, in key insertion order, and sorts them by count,
  largest first.
- `totalActivities` reduces the sorted entries to the sum of their counts.
- `handleChartToggle` switches the chart type between `"bar"` and `"pie"`,
  starting from `"bar"`.

Everything lives in module `DealActivityCharts` (`deal_activity_charts.dfy`).
A deal is `Option<Details>`, and each field of `Details` is `Option<int>`.
`None` stands for any falsy value, which `|| 0` turns into 0.

The counting `forEach` mutates a local object, so it is the method
`CountActivities`: a loop over three accumulators, proved against the
specification function `Tally`. The `map`/`sort` pipeline and the `reduce` are
pure, so they are functions: `Entries`, `SortByCountDesc` (a stable insertion
sort) and `TotalActivities` (a left fold, in the same order as `reduce`). The
toggle is the function `NextChartType`. The component's `chartType` state is
the field of class `ActivityChart`, and `HandleChartToggle` updates it.

## Model

| member | source | states |
|---|---|---|
| `DealActivityCharts.CountActivities` | src/components/Analytics/DealActivityCharts.jsx:14-26 | the loop leaves each counter equal to the sum over the deals with details of that field, a falsy field counting 0 |
| `DealActivityCharts.TallyAppend` | src/components/Analytics/DealActivityCharts.jsx:20-26 | the counters split over concatenation: the count over `xs + ys` is the count over `xs` plus the count over `ys` |
| `DealActivityCharts.SkipsDealWithoutDetails` | src/components/Analytics/DealActivityCharts.jsx:21 | a deal without `details` leaves every counter unchanged |
| `DealActivityCharts.AppendDeal` | src/components/Analytics/DealActivityCharts.jsx:22-24 | a deal with details adds exactly its own field to each counter, an absent or falsy field adding 0 |
| `DealActivityCharts.TallyNonNegative` | src/components/Analytics/DealActivityCharts.jsx:14-26 | when every supplied field is non-negative, every counter is non-negative |
| `DealActivityCharts.InsertPermutation` | src/components/Analytics/DealActivityCharts.jsx:31 | inserting adds exactly the one entry and loses none |
| `DealActivityCharts.InsertSorted` | src/components/Analytics/DealActivityCharts.jsx:31 | inserting into a list ordered by count, largest first, keeps it ordered |
| `DealActivityCharts.SortSortedPermutation` | src/components/Analytics/DealActivityCharts.jsx:31 | the sort's output is ordered by count, non-increasing, and is a permutation of its input |
| `DealActivityCharts.InsertStable` | src/components/Analytics/DealActivityCharts.jsx:31 | inserting an entry places it before every later entry of the same count and keeps their order |
| `DealActivityCharts.SortStable` | src/components/Analytics/DealActivityCharts.jsx:31 | for each count, the entries with that count appear in the output in the same order as in the input (a stable sort) |
| `DealActivityCharts.SortThree` | src/components/Analytics/DealActivityCharts.jsx:28-31 | on three entries the sort is the six-way decision tree over the counts, ties keeping input order |
| `DealActivityCharts.GetActivityData` | src/components/Analytics/DealActivityCharts.jsx:13-32 | computes the specified chart data: three entries ordered by count, each activity present with its own total |
| `DealActivityCharts.ActivityDataSortedPermutation` | src/components/Analytics/DealActivityCharts.jsx:28-31 | the chart data has exactly three entries, ordered by count, and is a reordering of the calls, meetings and emails entries |
| `DealActivityCharts.ActivityDataNames` | src/components/Analytics/DealActivityCharts.jsx:14-18 | each of calls, meetings and emails appears exactly once, and each name keeps its own total |
| `DealActivityCharts.ActivityDataTies` | src/components/Analytics/DealActivityCharts.jsx:28-31 | entries with equal counts keep the insertion order calls, meetings, emails |
| `DealActivityCharts.TotalAppend` | src/components/Analytics/DealActivityCharts.jsx:35 | the reduce over `s + t` is the reduce over `s` plus the reduce over `t` |
| `DealActivityCharts.InsertKeepsTotal` | src/components/Analytics/DealActivityCharts.jsx:31 | inserting an entry adds its count to the total and nothing else |
| `DealActivityCharts.SortKeepsTotal` | src/components/Analytics/DealActivityCharts.jsx:31-35 | sorting does not change the sum of the counts |
| `DealActivityCharts.DealsTotalIsSumOfTallies` | src/components/Analytics/DealActivityCharts.jsx:20-26 | the per-deal sum of calls + meetings + emails equals the sum of the three counters |
| `DealActivityCharts.TotalActivitiesCorrect` | src/components/Analytics/DealActivityCharts.jsx:34-35 | `totalActivities` equals the sum of the three counts and the sum over all deals with details of their calls, meetings and emails |
| `DealActivityCharts.TotalActivitiesNonNegative` | src/components/Analytics/DealActivityCharts.jsx:35 | `totalActivities` is non-negative when every supplied field is non-negative |
| `DealActivityCharts.NoDealsNoActivities` | src/components/Analytics/DealActivityCharts.jsx:14-18 | with no deals the chart data is calls, meetings, emails all at 0, and the total is 0 |
| `DealActivityCharts.ToggleFlips` | src/components/Analytics/DealActivityCharts.jsx:101-102 | a toggle always yields "bar" or "pie", and changes a chart type that was one of them |
| `DealActivityCharts.ToggleInvolution` | src/components/Analytics/DealActivityCharts.jsx:101-102 | toggling twice restores the chart type |
| `DealActivityCharts.ToggledParity` | src/components/Analytics/DealActivityCharts.jsx:100-102 | starting from "bar", an even number of toggles shows "bar" and an odd number "pie" |
| `DealActivityCharts.ActivityChart.constructor` | src/components/Analytics/DealActivityCharts.jsx:100 | the chart type starts as "bar" |
| `DealActivityCharts.ActivityChart.HandleChartToggle` | src/components/Analytics/DealActivityCharts.jsx:101-102 | the new chart type is the toggle of the old one, is always "bar" or "pie", and differs from a valid old one |

## Left out

- All JSX rendering and the charting library components (`BarChart`, `PieChart`, `Cell`, `Sector`, `Legend`, `Tooltip`, `ResponsiveContainer`): presentation done by a library that is not part of this model.
- The percentage strings (lines 56, 93 and 205-208): floating-point division and `toFixed` formatting, including division by a zero total.
- JavaScript number quirks: non-integer fields, `NaN`, and string concatenation when a field holds a string. Counts are unbounded integers. Every falsy field, `0` included, is `None` or `Some(0)`; both contribute 0.
- `activeIndex` and `onPieEnter` (lines 81-84): a state setter driven by the chart library's mouse events.
- The colour choice `COLORS[index % COLORS.length]`: cosmetic.
- `src/components/Academy/AcademyNavbar.jsx`: a static list of navigation items and router calls, with no logic to verify.
- A missing `deals` prop, or a `null`/`undefined` element of `deals`, makes `getActivityData` throw a TypeError at lines 20-21 and the component fails to render. In the model `deals` is always a sequence of `Option<Details>`, so the count never throws.
- React's `useState` re-render scheduling: the toggle is modelled as an immediate update of the `chartType` field.
- `Array.prototype.sort`'s own algorithm: the model uses a stable insertion sort. Every stable sort with the same comparator gives the same result, because the output is ordered by count (`SortSortedPermutation`) and ties keep input order (`SortStable`).
