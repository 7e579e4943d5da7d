# ARK Analytics dashboard: a Dafny model of its state and derived views

The dashboard is one React component, `App`, in `src/App.jsx`. It keeps
mock campaigns and products in memory and lets an admin add and delete
them. It shows a campaigns table sorted by ACoS, a product list filtered
by category and cut to a visible count, the total spend of that list, a
semicircular chart of the first five products' spend, and a trend line
over a fixed set of monthly or yearly samples.

This project models that logic:

- `records.dfy` (module `Records`) holds the records. A `Campaign` or
  `Product` is a datatype. The add form is `FormData`, a record of the
  raw text of its inputs. The file also holds the ACoS formula of the add
  flow, the new records the form creates, and the seed data.
- `lists.dfy` (module `Lists`) holds the JavaScript array operations the
  component uses: `filter`, `slice(0, n)` and removal by id, with their
  laws. Filtered elements keep their order, a delete removes exactly the
  matching records, and deleting twice does nothing more.
- `views.dfy` (module `Views`) holds the derived views. `sortedCampaigns`
  is a stable insertion sort by `acos`. It is proved to return a
  permutation, to be ordered in both modes and to be stable, and to
  commute with deletion. `filteredProducts` is filter-then-truncate, and
  `totalFilteredSpend` is the `reduce` sum.
- `charts.dfy` (module `Charts`) holds the chart geometry without the
  trigonometry. `generateRadialPaths` is a loop over the first five
  products that carries `currentAngle`. It is proved against a layout
  function, and the lemmas about that layout show that the shares fill
  the 180° span and the arcs meet end to end. With non-negative spends the
  large-arc flag is never set; a negative spend entered through the form
  can push another product's share past 180° and set it. An empty product
  list gives no arcs. The trend line has N−1 segments for N samples, and they meet end
  to end.
- `dashboard.dfy` (module `App`) holds the component state as the
  `Dashboard` class. Its fields are the `useState` fields. Its methods are
  the handlers, and each `modifies` only the fields that the handler's
  setters assign. The invariant `Valid()` says record ids are unique.
  Deletes preserve it, and so do adds, given a fresh timestamp.

Amounts, ACoS, angles and chart coordinates are Dafny `real`s. This
abstracts from IEEE double rounding.

Behaviour of the code that the model keeps as written:

- The radial chart divides each spend by the total of the first five
  spends (`src/App.jsx:196`) with no guard. An empty list gives no arcs,
  and the model proves that. When the list is not empty but the spends add
  up to zero, the code divides by zero. A guarded chart would instead
  draw no arcs for a zero total. `RadialArcs` therefore requires a
  non-zero total whenever the list is not empty.
- The add handler rejects a form only when the name, spend or sales text
  is empty (`src/App.jsx:117`). The spend and sales inputs are
  `type="number"` fields (`src/App.jsx:561-567`, `574-580`), and the
  browser reads text that is not a number back as the empty string, so
  the same check also turns away unparseable input. `parseFloat` can
  still return an infinity for text such as `1e400`, and an infinite
  spend over an infinite sales figure gives a `NaN` ACoS. In the model the
  parser is a parameter that returns a `real`, and any non-empty text is
  accepted.
- A new status message sets a new 3-second timer without cancelling the
  earlier one (`src/App.jsx:73-76`), so an older timer can clear a newer
  message early. Timers are not modelled.
- Product categories are free strings: the form offers Electronics, Home
  and Outdoor, and the filter offers All, Electronics and Home. The model
  keeps categories as strings.

## Model

| member | source | states |
|---|---|---|
| Records.Acos | src/App.jsx:132 | with sales > 0 the ACoS times sales equals spend times 1000; with sales ≤ 0 it is 0; it is non-negative for a non-negative spend |
| Records.Initial | src/App.jsx:133 | the avatar letter is empty for an empty name, otherwise one character: the upper-case form of the first character when that is a lower-case ASCII letter, and the first character itself otherwise |
| Records.NewCampaign | src/App.jsx:127-135 | the new campaign's id is "C" followed by the timestamp; it carries the form's name, spend and sales, the add-flow ACoS, the initial and the colour |
| Records.NewProduct | src/App.jsx:139-145 | the new product's id is "P" followed by the timestamp; it carries the form's name, spend and category and the colour |
| Records.SeedCampaigns | src/App.jsx:36-42 | five seeded campaigns, with their stored acos values taken literally |
| Records.SeedProducts | src/App.jsx:44-55 | ten seeded products |
| Lists.Filter | src/App.jsx:179 | the result is no longer than the input and holds exactly the input's elements that pass the test |
| Lists.FilterCounts | src/App.jsx:179 | every occurrence of a passing element is kept and every failing one is dropped |
| Lists.FilterAppend | src/App.jsx:179 | filtering distributes over concatenation, so kept elements stay in input order |
| Lists.FilterKeepsAll | src/App.jsx:106 | a list whose every element passes is returned unchanged |
| Lists.FilterDropsAll | src/App.jsx:179 | a list none of whose elements passes filters to the empty list |
| Lists.FilterIdempotent | src/App.jsx:106 | filtering twice by the same test equals filtering once |
| Lists.FilterKeepsUnique | src/App.jsx:106 | filtering a list with unique ids leaves the ids unique |
| Lists.Take | src/App.jsx:180 | `slice(0, n)` returns a prefix of length min(n, length) |
| Lists.RemoveId | src/App.jsx:105-113 | after a delete by id, a record is in the list exactly when it was before and its id differs from the argument |
| Lists.RemoveIdCounts | src/App.jsx:105-113 | deleting drops every record with the id and keeps every other record with its multiplicity |
| Lists.RemoveAbsentId | src/App.jsx:105-113 | deleting an id that no record carries leaves the list unchanged |
| Lists.RemoveIdTwice | src/App.jsx:105-113 | a repeated delete of the same id changes nothing more |
| Lists.RemoveIdAt | src/App.jsx:105-113 | with unique ids, deleting the id of the record at k yields the list without position k, the rest in order |
| Lists.FilterDropsOne | src/App.jsx:106 | filtering out one failing record that sits between passing ones returns the others in their order |
| Lists.RemoveIdKeepsUnique | src/App.jsx:105-113 | deleting keeps ids unique |
| Views.SpendTotal | src/App.jsx:183-185 | the `reduce` sum is 0 for an empty list and non-negative when all spends are |
| Views.SpendTotalAppend | src/App.jsx:184 | the sum over a concatenation is the sum of the two sums |
| Views.SpendAtMostTotal | src/App.jsx:190 | with non-negative spends, each product's spend is at most the total |
| Views.FilterSpendAtMost | src/App.jsx:176-185 | with non-negative spends, the sum over a filtered list is at most the sum over the list |
| Views.PrefixSpendAtMost | src/App.jsx:180-185 | with non-negative spends, the sum over a prefix is at most the sum over the list |
| Views.Insert | src/App.jsx:171-173 | inserting one row adds exactly that row to the multiset of rows |
| Views.InsertOrdered | src/App.jsx:171-173 | inserting into an ordered list keeps it ordered |
| Views.SortByAcos | src/App.jsx:170-174 | the sorted table has the same length and the same rows as the list, and every pair of rows is in order |
| Views.SortedDescending | src/App.jsx:172 | in 'desc' mode acos never increases down the table |
| Views.SortedAscending | src/App.jsx:172 | in 'asc' mode acos never decreases down the table |
| Views.FilterInsert | src/App.jsx:171-173 | filtering an ordered list after inserting a row equals inserting the row, when it passes, into the filtered list |
| Views.SortCommutesWithFilter | src/App.jsx:170-174 | sorting then filtering equals filtering then sorting |
| Views.SortKeepsTies | src/App.jsx:171-173 | a list whose rows all share one acos is left in its order |
| Views.SortIsStable | src/App.jsx:170-174 | for every acos value, the rows with that value appear in the table in their list order |
| Views.SortAfterDelete | src/App.jsx:105-108 | after a campaign delete, the table is the old table without the deleted rows, the rest in the same order |
| Views.CategoryMatches | src/App.jsx:177-179 | with 'All' every product matches; otherwise exactly the products of the selected category |
| Views.VisibleProducts | src/App.jsx:176-181 | the shown list is the prefix of length min(count, matches) of the matching products, all of the selected category |
| Views.MatchShownAtRank | src/App.jsx:176-181 | truncation comes after filtering: a matching product is shown at its rank among the matches exactly when that rank is below the count |
| Views.TotalVisibleSpend | src/App.jsx:183-185 | with non-negative spends, the shown total lies between 0 and the sum over all products |
| Views.NoMatchShowsNothing | src/App.jsx:176-185 | a category that no product has shows an empty list and a total of 0 |
| Charts.ChartedProducts | src/App.jsx:189 | the chart uses the first min(5, length) products of the unfiltered list |
| Charts.ShareAtMostSpan | src/App.jsx:196-197 | a spend between 0 and the total gets a share between 0 and 180 |
| Charts.SharesAdd | src/App.jsx:196-200 | shares of the span add up like the spends they come from |
| Charts.WholeShare | src/App.jsx:190-197 | the whole total takes the whole 180° span |
| Charts.LayoutArcs | src/App.jsx:195-207 | one arc per charted product |
| Charts.LayoutArcAt | src/App.jsx:196-207 | arc k carries product k's id and colour, its size is that product's share, it ends at its start minus its size, and its large-arc flag is set exactly when the size exceeds 180 |
| Charts.LayoutContiguous | src/App.jsx:188-200 | the first arc starts at 180 and every other arc starts where the previous one ends |
| Charts.LayoutCovers | src/App.jsx:195-200 | the sizes sum to the share of the summed spend, and the last arc ends that far below 180 |
| Charts.LayoutFillsSpan | src/App.jsx:187-207 | over their own total the sizes sum to 180 and the last arc ends at 0; with non-negative spends every size is within [0, 180] and the large-arc flag is 0 |
| Charts.RadialArcs | src/App.jsx:187-220 | the loop over `currentAngle` yields the layout: one arc per charted product, none exactly when there are no products; otherwise the first starts at 180, the last ends at 0, and the sizes sum to 180 |
| Charts.SlotStep | src/App.jsx:487-489 | a segment's start `(i + 0.5) / n` and end `(i + 1.5) / n` are the slots of samples i and i + 1, and the end lies right of the start |
| Charts.SegmentAt | src/App.jsx:486-495 | segment i runs from sample i's vertex to sample i + 1's, left to right, and only the segment ending at the last sample marks its end vertex |
| Charts.LineSegments | src/App.jsx:485-497 | N samples give N − 1 segments (none for 0 or 1); consecutive segments meet end to end; only the last one marks its end |
| Charts.ChartData | src/App.jsx:153-168 | Monthly has 12 samples and Yearly 5, so the trend line has 11 or 4 segments |
| App.WithField | src/App.jsx:539-595 | a field's change handler replaces that field of the form and keeps the others |
| App.ClearedForm | src/App.jsx:149 | after an add the name, spend and sales are empty, so the form is incomplete again, while type and category are kept |
| App.PrependKeepsUnique | src/App.jsx:136-146 | prepending a record whose id is new keeps ids unique |
| App.Dashboard.constructor | src/App.jsx:13-55 | the initial state: the seed lists, not admin, an empty passcode field, the empty Campaign form with category Electronics, 'desc', 'All', 4 visible, Monthly, no message, not refreshing |
| App.Dashboard.ShowFeedback | src/App.jsx:73-76 | the message becomes the given text |
| App.Dashboard.Refresh | src/App.jsx:78-80 | the summary card shows its loading state |
| App.Dashboard.EditPassInput | src/App.jsx:524 | the passcode field takes the typed value |
| App.Dashboard.Login | src/App.jsx:88-97 | the passcode 'patil123' sets admin and clears the field; any other input leaves admin and the field as they were; the message says which |
| App.Dashboard.Logout | src/App.jsx:99-102 | admin mode ends |
| App.Dashboard.DeleteCampaign | src/App.jsx:105-108 | the campaigns become the old list without the records with that id; ids stay unique; nothing but the list and the message changes |
| App.Dashboard.DeleteProduct | src/App.jsx:110-113 | the products become the old list without the records with that id; ids stay unique; nothing but the list and the message changes |
| App.Dashboard.EditForm | src/App.jsx:539-595 | the form takes the changed field's new value |
| App.Dashboard.AddData | src/App.jsx:115-150 | an empty name, spend or sales changes neither list nor the form; otherwise exactly one new record goes in front of the list the type selects, the other list is untouched, ids stay unique, and the form's text fields are cleared |
| App.Dashboard.ToggleSortOrder | src/App.jsx:422 | the header click flips 'desc' and 'asc' |
| App.Dashboard.SetSortOrder | src/App.jsx:408-409 | the menu entries set the order and the matching message |
| App.Dashboard.SelectCategory | src/App.jsx:355-357 | the category filter takes the chosen value |
| App.Dashboard.ViewAll | src/App.jsx:359 | the visible count becomes 10 |
| App.Dashboard.ResetTopFour | src/App.jsx:360 | the visible count becomes 4 |
| App.Dashboard.SetViewMode | src/App.jsx:467-468 | the view mode takes the chosen value, which replaces the sample set as a whole |
| App.Dashboard.SortedCampaigns | src/App.jsx:170-174 | the table read from the state holds the same rows as `campaigns` and is ordered by the current sort order; `campaigns` itself is not reordered |
| App.Dashboard.FilteredProducts | src/App.jsx:176-181 | the shown products are the first min(`visibleCount`, number of matches) products of the category matches, each in the selected category unless that is 'All' |
| App.Dashboard.TotalFilteredSpend | src/App.jsx:183-185 | the total is the spend summed over exactly the shown products |

## Left out

- `formatINR` (`src/App.jsx:65-71`) calls `Intl.NumberFormat` with the Indian locale. Its digit grouping belongs to the platform, not to this code.
- The timers in `showFeedback` and `handleRefresh` (`src/App.jsx:73-85`) are left out. The model sets `message` and `isSummaryRefreshing`. It does not model their clearing after 3000 ms or 1500 ms, or the message shown when the refresh ends.
- `openMenu` and `activeSummary` are left out. They only record which dropdown is open and which summary tile is highlighted, and no modelled logic reads them.
- Trigonometric point placement, SVG path strings and bar heights (`src/App.jsx:202-212`, `480`) are rendering, not logic. The chart model keeps only the angle and slot arithmetic.
- IEEE doubles are modelled as `real`. `NaN` and the infinities that `parseFloat` or a zero divisor can produce have no counterpart in the model.
- `parseFloat`, `Date.now()` and `Math.random()` become parameters of `AddData`. The timestamp is required to give ids not yet in use.
- Records.UpperAscii: `toUpperCase` is modelled for the ASCII letters only. Other characters are kept as they are.
- Records.Initial: strings are modelled as sequences of characters, not of UTF-16 code units. For a name that starts with a character outside the Basic Multilingual Plane, such as an emoji, `charAt(0)` returns a lone surrogate, but the model returns the whole character. Only ASCII letters are upper-cased.
- Charts.RadialArcs: requires a non-zero total of the first five spends when the product list is not empty. With such a list and a zero total the code divides by zero and computes `NaN` or infinite angles. The empty list is modelled: it gives no arcs.
- Views.SortByAcos is one stable sort, an insertion sort. The model proves that it returns a permutation, ordered in either mode, and that it is stable, which is what ECMA-262 requires of `Array.prototype.sort`. It does not prove that every stable sort gives this same list.
- The handlers do not check `isAdmin`. Only the markup hides the delete buttons and the add form, and the model follows the handlers.
- `summaryData`, the JSX markup and the CSS string (`src/App.jsx:57-62`, `222-609`) are static presentation.
