# Donation report aggregation

A Dafny model of the aggregation behind the organization dashboard's donation
report. In the source this is `fetchDonations` in
`components/reports/donation-reports.jsx`, together with the three per-channel
views the component derives from its `donations` state. It has two stages.

- **The collector.** Three document lists (cash, online, crypto) are scanned in
  that order. A document is kept when its storage path contains
  `donations/{ngoId}/{year}`. Each kept document becomes a donation whose
  `paymentMethod` is the tag of the list it came from.
- **The summarizer.** From the collected donations it computes:
  - `total`: the sum of the non-crypto amounts;
  - `breakdown`: per-method sums, crypto included, in first-occurrence order;
  - `topDonors`: the three largest non-crypto donations, from a stable
    descending sort, projected through the `name`/`donorName` and
    `timestamp`/`donatedOn` fallbacks.

Modules, one file each:

- `Wrappers` (`wrappers.dfy`): the `Option` type.
- `Donations` (`donations.dfy`): documents, bodies and donations. Also
  JavaScript's readings of the fields:
  - `Number(x || 0)` is `Coerced`;
  - `Number(x)` is `ToNumber`, where an absent amount becomes NaN;
  - truthiness and `a || b` on display fields.
  - It also holds the method filters and sums.
- `Paths` (`paths.dfy`): `String.prototype.includes` and the scope string
  `donations/{ngoId}/{year}`.
- `Collector` (`collector.dfy`): the object literal
  `{ id: doc.id, ...doc.data(), paymentMethod }` as `Tag`. The `forEach`/`push`
  loop is the method `CollectChannel`, proved against the function `Matching`.
  `Collected` is the three scans one after the other.
- `Summarizer` (`summarizer.dfy`): `total` as a filter and sum. The breakdown
  `reduce` updates a dictionary in place, so it is an imperative method
  (`Breakdown`) over a `map` and a key-order sequence, which models
  `Object.entries`. Its callback is the method `AddDonation`. `Breakdown` is proved equal to the function `BreakdownOf`, and the
  required properties are proved about that function.
- `Ranking` (`ranking.dfy`): the comparator `Number(b.amount) - Number(a.amount)`
  (a NaN result counts as "equal"), a stable insertion sort, `slice(0, 3)` and
  the projection into `topDonors`.
- `Views` (`views.dfy`): `cashDonations`, `onlineDonations`, `cryptoDonations`
  and their partition of the collected list.
- `Reports` (`reports.dfy`): the component's two state cells (`donations`,
  `donationStats`) as the class `DonationReports`, and `fetchDonations` as
  its method `FetchDonations`. It also holds a worked example.

Amounts are modelled as `Missing` (an absent field) or an integer (a number, an
integer string, `null` or `""`, all of which `Number` reads as an integer).

Two consequences of the code are easy to miss:

- **No channel segment.** The path test is
  `path.includes("donations/" + ngoId + "/" + currentYear)` (lines 40, 50, 60).
  It names no channel. A document of the signed-in organization and year is
  therefore kept even when its path names a different channel, and it is tagged
  with the list it came from (`ScopedDocumentKept`, `ScenarioCollected`). A
  year that merely begins with the current year (`245` for `24`) also passes
  (`IncludesInfix`). Another organization (`OtherOrgExcluded`) and another year
  of the same length (`OtherYearExcluded`) fail it.
- **All or nothing.** All three `await getDocs` calls (lines 36, 46, 56) run
  before `setDonations` (line 66) and `setDonationStats` (line 106), and all of this sits
  inside one `try` (lines 24-107). A fetch that throws jumps to the `catch`
  before either cell is written. So a failed fetch leaves both state cells as
  they were (`FetchDonations`).

## Model

| member | source | states |
|---|---|---|
| Reports.DonationReports.constructor | components/reports/donation-reports.jsx:12-17 | `donations` starts empty and `donationStats` starts as `{ total: 0, breakdown: [], topDonors: [] }`. |
| Reports.DonationReports.FetchDonations | components/reports/donation-reports.jsx:23-109 | Without a non-empty organization id, or when any of the three fetches throws, neither state cell changes. Otherwise `donations` becomes the cash, online and crypto scans of that organization's year, and the stats are their total, breakdown and top donors. |
| Reports.StatsConsistent | components/reports/donation-reports.jsx:68-85 | The breakdown entries sum to the sum over all donations, and `total` is that sum less the crypto donations. |
| Reports.ScenarioCollected | components/reports/donation-reports.jsx:33-63 | Worked example for organization `n` and year `24`. The cash document `donations/m/24/w1/cash/o1` of another organization is dropped. The crypto document `donations/n/24/w1/online/o1/crypto/c1`, whose path also names the online channel, is kept and tagged `Crypto` over the body's own method. |
| Reports.ScenarioStats | components/reports/donation-reports.jsx:68-106 | For that example, `total` is 500 (crypto left out), the breakdown is Cash 500 then Crypto 700, and the single top donor's date falls back to `donatedOn`. |
| Collector.CollectChannel | components/reports/donation-reports.jsx:37-43 | The `forEach` loop appends to the donations collected so far exactly that channel's matching documents, tagged, in list order (the same loop is used at lines 47-53 and 57-63). |
| Collector.Matching | components/reports/donation-reports.jsx:39-41 | A channel's scan yields at most one donation per document, each tagged with the channel's name. |
| Collector.MatchingPositions | components/reports/donation-reports.jsx:39-41 | The scan's donations are the tagged documents at increasing positions. A document is kept if and only if its path includes `donations/{ngoId}/{year}`. |
| Collector.TagFields | components/reports/donation-reports.jsx:41 | The tag overrides any `paymentMethod` of the body. A body `id` overrides the document id, and the amount is the body's. |
| Collector.MatchingAppend | components/reports/donation-reports.jsx:37-43 | Scanning two lists in turn yields the first list's donations, then the second's. |
| Collector.CollectedGrouped | components/reports/donation-reports.jsx:33-63 | The collected list is the cash block, then the online block, then the crypto block, each donation tagged with its block's channel. |
| Collector.ScopedDocumentKept | components/reports/donation-reports.jsx:40 | A path that starts with the scope is kept whatever follows it: there is no channel segment. |
| Paths.IncludesIff | components/reports/donation-reports.jsx:40 | The modelled `includes` holds exactly when the scope occurs at some position of the path. |
| Paths.IncludesInfix | components/reports/donation-reports.jsx:40 | A path holding the scope anywhere passes the test. |
| Paths.OtherOrgExcluded | components/reports/donation-reports.jsx:40 | For organization ids without `/`, a path under `donations/{m}/{anyYear}` fails the test for organization `n` when `m != n`, whatever follows (provided no second `donations/` occurs in it). |
| Paths.OtherYearExcluded | components/reports/donation-reports.jsx:40 | A path under the same organization and a different year of the same length fails the test, whatever follows (provided no second `donations/` occurs in it). |
| Paths.MissingFirstChar | components/reports/donation-reports.jsx:40 | A path that lacks the first character of the scope fails the test. |
| Views.CollectedTagged | components/reports/donation-reports.jsx:41 | Every collected donation carries one of the three channel tags (also lines 51 and 61). |
| Views.ViewsPartition | components/reports/donation-reports.jsx:116-118 | On a channel-tagged list, the cash, online and crypto views together hold every donation exactly once (multiset equality). |
| Views.ViewOfMatching | components/reports/donation-reports.jsx:116-118 | A view of one channel's scan is the whole scan for that channel's name, and empty for any other name. |
| Views.ViewsOfCollected | components/reports/donation-reports.jsx:116-118 | Each view of the collected list is exactly the matching scan of that channel's documents, in order. |
| Views.TotalOfViews | components/reports/donation-reports.jsx:69-71 | On a channel-tagged list, `total` equals the cash view's sum plus the online view's sum. |
| Donations.Or | components/reports/donation-reports.jsx:94 | The fallback `a or b` (JavaScript's logical or) is truthy if and only if either operand is. It is `a` when `a` is truthy and `b` otherwise. |
| Donations.WithMethod | components/reports/donation-reports.jsx:116 | Every donation kept by the filter has the given method. |
| Donations.WithoutMethod | components/reports/donation-reports.jsx:70 | No donation kept by the filter has the given method. |
| Donations.FilterSplit | components/reports/donation-reports.jsx:70 | The `!== m` filter and the `=== m` filter together keep every donation exactly as often as it occurs (multiset equality). |
| Donations.FiltersComplete | components/reports/donation-reports.jsx:70 | Every donation whose method is not `m` is kept by the `!==` filter, and every donation whose method is `m` by the `===` filter (also lines 90 and 116-118). |
| Donations.WithMethodAppend | components/reports/donation-reports.jsx:70 | Filtering a concatenation concatenates the filtered parts, for both the `===` and the `!==` filter. |
| Donations.SumOfAppend | components/reports/donation-reports.jsx:71 | The `reduce` sum over a concatenation is the sum of the parts' sums. |
| Summarizer.TotalExcludesCrypto | components/reports/donation-reports.jsx:69-71 | `total` plus the sum over the crypto donations is the sum over all donations, with falsy amounts counted as 0. |
| Summarizer.Breakdown | components/reports/donation-reports.jsx:75-85 | The in-place `reduce` over the accumulator, followed by `Object.entries`, yields exactly `BreakdownOf`: the first-occurrence keys, each paired with that key's sum. |
| Summarizer.AddDonation | components/reports/donation-reports.jsx:75-79 | One run of the `reduce` callback turns the accumulator of the donations so far into the accumulator of one more donation, and appends the key to the insertion order exactly when it is new. |
| Summarizer.AccOfSums | components/reports/donation-reports.jsx:75-79 | After the `reduce`, the accumulator has exactly the keys present, each mapped to that key's sum. |
| Summarizer.AccumulatorEntries | components/reports/donation-reports.jsx:82-85 | The rows of the finished accumulator are the breakdown `BreakdownOf`. |
| Summarizer.BreakdownTotal | components/reports/donation-reports.jsx:75-85 | The breakdown's amounts sum to the sum over all donations, crypto included. |
| Summarizer.BreakdownRows | components/reports/donation-reports.jsx:75-85 | The entries have distinct methods. Their methods are exactly the keys present (the method, or `"Other"` when it is empty), in order of first occurrence. Each amount is that key's sum. |
| Summarizer.MethodSumIsChannelSum | components/reports/donation-reports.jsx:76-77 | For a method other than `""` and `"Other"`, its breakdown sum is the sum over the donations carrying it. |
| Summarizer.FirstIndex | components/reports/donation-reports.jsx:82 | The position of a key's first occurrence: it is in range if and only if the key occurs, and no earlier entry equals it. |
| Summarizer.FirstOccurrencesElements | components/reports/donation-reports.jsx:82 | The insertion-ordered key list has no duplicates and holds exactly the keys that occur. |
| Summarizer.FirstOccurrencesOrder | components/reports/donation-reports.jsx:82 | The insertion-ordered key list is ordered by first occurrence. |
| Summarizer.KeysMembers | components/reports/donation-reports.jsx:76 | A key occurs if and only if some donation's method (`"Other"` when empty) is that key. |
| Summarizer.MethodSumAbsent | components/reports/donation-reports.jsx:77 | A key that never occurs has sum 0. |
| Summarizer.EntriesForAt | components/reports/donation-reports.jsx:82-85 | The i-th entry is the i-th key paired with its sum. |
| Ranking.Insert | components/reports/donation-reports.jsx:91 | Inserting into the sorted prefix adds exactly that one donation: a permutation. |
| Ranking.SortByAmount | components/reports/donation-reports.jsx:89-91 | The sorted copy is a permutation of the filtered donations. |
| Ranking.SortDescending | components/reports/donation-reports.jsx:91 | When every amount is present, the sorted copy is non-increasing in amount. |
| Ranking.SortStable | components/reports/donation-reports.jsx:91 | When every amount is present, donations of equal amount keep their relative order (stability). |
| Ranking.InsertDescending | components/reports/donation-reports.jsx:91 | Insertion keeps a non-increasing list non-increasing. |
| Ranking.InsertStable | components/reports/donation-reports.jsx:91 | Insertion places a donation after every earlier donation of the same amount. |
| Ranking.WithValueAppend | components/reports/donation-reports.jsx:91 | Selecting by amount distributes over concatenation. |
| Ranking.TopDonorsShape | components/reports/donation-reports.jsx:89-97 | `topDonors` has `min(3, n)` entries for `n` non-crypto donations, drawn without repetition from them. `name` is `name` when truthy, else `donorName`; `date` is `timestamp` when truthy, else `donatedOn`; `amount` is `Number(amount)`. |
| Ranking.TopDonorsDescending | components/reports/donation-reports.jsx:91-95 | When every non-crypto amount is present, the `topDonors` amounts are non-increasing. |
| Ranking.TopDonorsAreLargest | components/reports/donation-reports.jsx:89-92 | When every non-crypto amount is present, every selected amount is at least every unselected non-crypto amount. |
| Ranking.TopDonorsStable | components/reports/donation-reports.jsx:89-92 | When every non-crypto amount is present, the selected donations of each amount are the first ones of that amount in collected order. |

## Left out

- Firestore access (`getDocs`, `collectionGroup`, `doc.ref.path`, `doc.data()`) is I/O, and so is `auth.currentUser`. The three fetched lists become `Fetched` parameters (documents, or a thrown error), and the user id becomes an optional string.
- The year from `new Date().getFullYear()` (line 21) reads the clock, so it is a parameter.
- The React lifecycle (`useEffect`, the asynchronous scheduling of the `await`s, re-rendering) is framework behaviour. Only the final state of the two cells is modelled. In the code a failed fetch also stops the later fetches; the model states only that state is unchanged.
- `console.log`/`console.error` are logging only.
- Rendering is presentation: the tables, `slice(0, 5)`, `toLocaleString`, the pie chart and its colours, date display, and the `timeFrame` prop, which is unused. `app/layout.js` is not part of this model (presentation only).
- Floating-point amounts are out of scope: amounts are integers, so fractional sums and rounding are not modelled.
- An amount string that is not an integer (`"abc"`) gives NaN through `Number` in JavaScript, so NaN sums and NaN breakdown entries are not modelled. Such values are outside the `Amount` type.
- A body field holding an explicit `undefined` is treated as absent. Extra body fields that the spread copies (and the report never reads) are not represented.
- Accumulator keys that collide with `Object.prototype` members, or that look like integers (which `Object.entries` lists first), are not modelled. The keys here are the three channel tags.
- The copy `[...allDonations]` that is sorted in place is modelled on values. The absence of mutation of `allDonations` therefore holds by construction rather than as a stated property about aliasing.
- Ranking.TopDonorsDescending: ordering is stated only when every non-crypto amount is present. A missing amount makes `Number(undefined)` NaN, so the comparator is inconsistent and the engine's order is implementation-defined. The model then keeps the order its insertion sort produces.
- Ranking.TopDonorsAreLargest: stated under the same condition, for the same reason.
- Ranking.TopDonorsStable: stated under the same condition, for the same reason.
- Ranking.SortDescending: stated under the same condition, for the same reason.
- Ranking.SortStable: stated under the same condition, for the same reason.
