# Portfolio refresh engine

A Dafny model of the recomputation at the heart of the portfolio tracker's
server, `updatePortfolio` in `backend/server.js`, and of the headline
totals the dashboard derives from the stored snapshot
(`frontend/components/portfolio-summary.tsx`).

One refresh cycle reads the persisted document, and for every holding, in
list order:

- stores the current market price, P/E ratio and earnings per share, each 0
  when its fetch fails;
- derives investment, present value and gain/loss;
- adds the investment to the running total;
- adds the holding to the entry of its sector label, creating that entry on
  first sight.

A second pass gives every holding its share of the total investment (0 for
all when the total is not positive). A third pass gives every sector its
gain/loss. The document is then written back. If reading, parsing or
computing throws, the cycle is abandoned before the write and the file keeps
its previous contents.

Layout:

| file | module | what it holds |
|---|---|---|
| `wrappers.dfy` | `Wrappers` | `Option` |
| `types.dfy` | `Types` | the document's records (`Stock`, `SectorData`, `Portfolio`) |
| `gateway.dfy` | `Gateway` | the two fetchers reduced to their outcomes, with the 0 fallbacks |
| `valuation.dfy` | `Valuation` | what a cycle does to the list of holdings, as functions, with the per-stock, total and percentage properties |
| `sectors.dfy` | `SectorAggregation` | the sector dictionary defined independently of the loop, its step lemmas and the partition property |
| `refresh.dfy` | `Refresh` | the cycle itself: in-place passes over an `array<Stock>`, each proved against the functions above, and the `PortfolioFile` class whose document one cycle replaces |
| `prototype_keys.dfy` | `PrototypeKeys` | the sector lookup as written, for the finding below |
| `summary.dfy` | `Summary` | the dashboard totals, return percentage and up/down indicators |
| `scenarios.dfy` | `Scenarios` | two worked cycles: two holdings in two sectors, and no holdings |

Market data is a parameter. A `Market` maps each ticker to what the quote
service and the finance page answer for it in this cycle. A ticker missing
from the map makes both fetches fail. `JSON.parse` failing is the
`Unreadable` document. The timestamp written at line 68 is the parameter
`now`.

## Model

| member | source | states |
|---|---|---|
| `Gateway.FetchCmp` | backend/server.js:11-19 | the quoted price when the call answers with one, else 0; a nonzero result is always the quoted price |
| `Gateway.FetchPeAndEarnings` | backend/server.js:20-32 | each parsed figure when the page answers, 0 for a figure that does not parse, both 0 when the fetch throws; a nonzero figure is always the parsed one |
| `Valuation.Enrich` | backend/server.js:40-48 | defines one stock after the first pass: fetched figures stored, the three amounts derived |
| `Valuation.FirstPass` | backend/server.js:39-48 | defines the list after the first loop: `Enrich` applied to every stock with its own ticker's answers, in order |
| `Valuation.Weight` | backend/server.js:62 | the guarded share: with a positive total, share × total = investment × 100; otherwise 0 |
| `Valuation.WithPercentages` | backend/server.js:61-63 | defines the list after the second loop: every stock gets `Weight` of its investment, nothing else changes |
| `SectorAggregation.Accumulated` | backend/server.js:52-58 | defines the dictionary after the first loop: one entry per label, holding its members' tickers in order and their summed investment and present value |
| `SectorAggregation.Sectors` | backend/server.js:64-67 | defines the stored dictionary: `Accumulated` with each entry's gain/loss set |
| `Refresh.Refreshed` | backend/server.js:33-70 | defines the document a successful cycle writes: the valued list, its dictionary and key order, and the new timestamp |
| `PrototypeKeys.AccumulateAsWritten` | backend/server.js:52-58 | defines the first loop's dictionary as written: `None` when a label names an inherited `Object.prototype` member |
| `Summary.PortfolioTotals` | frontend/components/portfolio-summary.tsx:10-12 | defines the dashboard's totals: the summed investment, the summed present value, and their difference |
| `Refresh.ValueStock` | backend/server.js:40-48 | the stock keeps name, sector, quantity, purchase price and percentage; cmp is the price fetch's result and P/E and EPS the page fetch's; investment = purchase price × quantity, present value = cmp × quantity, gain/loss = present value − investment; this is `Enrich` of the stock |
| `Refresh.AddToSector` | backend/server.js:52-58 | adding one stock turns the dictionary and key order of the stocks seen so far into those of the stocks seen so far plus this one |
| `Refresh.AccumulatePass` | backend/server.js:39-59 | the array becomes the first pass of its old contents; the total is the sum of the new investments; the dictionary and key order are those of the whole list |
| `Refresh.PercentagePass` | backend/server.js:61-63 | every stock's percentage becomes its guarded share of the total, nothing else changes |
| `Refresh.GainLossPass` | backend/server.js:64-66 | every entry of the dictionary gets gain/loss = present value − investment, nothing else changes |
| `Refresh.UpdateValuations` | backend/server.js:36-66 | the array becomes `Valued` of its old contents; the total, the key order and the dictionary are those of the new list |
| `Refresh.PortfolioFile.UpdatePortfolio` | backend/server.js:33-74 | an unreadable document aborts the cycle and stays as it was; otherwise the refreshed document replaces it and is returned |
| `Refresh.RefreshIdempotent` | backend/server.js:39-68 | two cycles with the same market answers store the same document as one, up to the timestamp |
| `Valuation.Valued` | backend/server.js:39-63 | the list keeps its length |
| `Valuation.ValuedStock` | backend/server.js:39-62 | each holding keeps name, sector, quantity and purchase price; gets the fetched figures with their fallbacks; investment = price × quantity, present value = cmp × quantity, gain/loss = their difference; its percentage is its share of the total investment, or 0 when that is not positive |
| `Valuation.PercentagesSumTo100` | backend/server.js:61-63 | the percentages sum to exactly 100 when the total investment is positive, and are all 0 otherwise |
| `Valuation.GainLossTotal` | backend/server.js:45-48 | when each gain/loss is present value − investment, so is the sum of gains/losses |
| `Valuation.ValuedTotals` | backend/server.js:36-50 | the total investment of an empty list is 0; after a cycle the summed gain/loss is summed present value − summed investment |
| `Valuation.PriceFailureFallback` | backend/server.js:14-17 | a failed price fetch gives cmp 0, present value 0, gain/loss = −investment, and leaves the fundamentals to the page fetch |
| `Valuation.PageFailureFallback` | backend/server.js:28-31 | a failed page fetch gives P/E 0 and EPS 0, and leaves the price to the price fetch |
| `Valuation.ValuedIdempotent` | backend/server.js:39-63 | valuing an already valued list with the same answers changes nothing |
| `SectorAggregation.SectorLabelsCoverOnce` | backend/server.js:52-55 | every stock's label is a key, and no key is listed twice |
| `SectorAggregation.SectorKeysExact` | backend/server.js:52-55 | a label is a key of the dictionary exactly when some stock carries it |
| `SectorAggregation.SectorLabelsSnoc` | backend/server.js:53-55 | a label is appended to the key order when it is first met, and only then |
| `SectorAggregation.PendingSnoc` | backend/server.js:53-58 | one more stock changes only its own sector's entry: created empty on first sight, then its ticker appended and its amounts added |
| `SectorAggregation.AccumulatedSnoc` | backend/server.js:52-58 | the dictionary of a list plus one stock is the previous dictionary with that one entry updated |
| `SectorAggregation.SectorListsMembers` | backend/server.js:53-58 | a ticker is listed under a sector exactly when a stock with that label and name exists, whatever its quantity |
| `SectorAggregation.SectorsFinalizeAccumulated` | backend/server.js:64-66 | the stored dictionary is the accumulated one with each entry's gain/loss set to present value − investment |
| `SectorAggregation.SectorsIgnorePercentage` | backend/server.js:61-67 | the percentage pass leaves the key order and the dictionary as the first pass built them |
| `SectorAggregation.SectorsPartitionPortfolio` | backend/server.js:50-65 | summed over the sectors, investments, present values and gains/losses equal the sums over all stocks |
| `PrototypeKeys.AsWrittenAborts` | backend/server.js:52-58 | the lookup as written aborts exactly when some label names an `Object.prototype` member, and otherwise builds the intended dictionary |
| `PrototypeKeys.ConstructorSectorAborts` | backend/server.js:53-58 | one holding in sector "constructor" aborts the code as written, while the intended dictionary has that key |
| `Summary.GainLossPercentage` | frontend/components/portfolio-summary.tsx:13 | with a nonzero investment, percentage × investment = gain/loss × 100 |
| `Summary.GainLossUp` | frontend/components/portfolio-summary.tsx:47-54 | the gain/loss card points up exactly when present value ≥ investment |
| `Summary.ReturnUp` | frontend/components/portfolio-summary.tsx:63-70 | the return card agrees with the gain/loss card when the investment is positive, and is reversed when it is negative |
| `Summary.EmptyPortfolioTotals` | frontend/components/portfolio-summary.tsx:10-12 | no holdings gives three zero totals and an upward arrow on the gain/loss card |
| `Summary.RefreshedTotalsAgree` | frontend/components/portfolio-summary.tsx:10-12 | on a refreshed snapshot, the dashboard's totals are the sector sums, its gain/loss is the sum of per-stock gains/losses, and the percentages sum to 100 when investment is positive |
| `Summary.RefreshedPercentages` | frontend/components/portfolio-summary.tsx:10 | each stored percentage is the stock's investment over the dashboard's total investment |
| `Scenarios.TwoHoldingsCycle` | backend/server.js:39-66 | 10 AAPL at 100 and 5 XOM at 50, quoted 150 and 40, give +500 and −50, weights 80% and 20%, and one sector each |
| `Scenarios.EmptyCycle` | backend/server.js:36-37 | no holdings give no sectors and no division |

## Left out

- The network calls (`yahoo-finance2`, `axios`, the `cheerio` selectors) are not modelled. Their outcomes are the `Market` parameter, and `parseFloat` is reduced to "a number or NaN".
- Failures inside the fetch calls are not distinguished: a thrown error and a missing or NaN value both give 0. The error logging is left out.
- File I/O is reduced to its outcome. A failed read or parse is the `Unreadable` document, and `writeFile` is assumed to succeed. A write failure after a successful computation is not modelled.
- The `setInterval` timer, overlapping cycles and the Express route are left out. Each cycle is modelled as atomic, with one fixed snapshot of market answers.
- The timestamp is not computed: it is the parameter `now`.
- Money is modelled as `real`, so IEEE-754 rounding is absent. Sums and the 100% identity are exact, and NaN or infinite amounts cannot arise.
- JavaScript puts integer-like object keys first when it orders them. The model uses first-seen insertion order for every key.
- The document's own well-formedness is not modelled (missing fields, non-numeric quantities). The model starts from well-typed records.
- The source creates a sector entry without `gain_loss` and adds it in the last pass. The model holds 0 there until that pass, and no caller can observe the difference.
- Summary.GainLossPercentage: requires a nonzero total investment. Line 13 divides without a guard, so with no holdings or a zero total the percentage is `NaN` (or ±Infinity when only the gain/loss is nonzero). The model states no value for that case.
- Summary.ReturnUp: requires a nonzero total investment, for the same reason. With `NaN` the test `>= 0` at lines 63-71 is false, so the return card shows `NaN%` with a downward arrow. The model does not cover that display.
- A failed `writeFile` at line 69 is not modelled. It truncates the file before writing, so a failed write can leave the file empty or partial rather than as it was.
- `Valuation.Valued`: its contract gives only the length. The per-holding facts are in `Valuation.ValuedStock`, one index at a time, which keeps the proofs small.
- Display formatting (`Intl.NumberFormat`, `toFixed`) and the other React components are left out.

## Findings

| source | as written | input that shows it | evidently intended | confidence | as-written member | corrected member |
|---|---|---|---|---|---|---|
| backend/server.js:53 | `if (!sectors[sector])` on the plain object `{}` finds inherited `Object.prototype` members. A label such as "constructor" or "toString" therefore gets no entry, `sectors[sector].stocks.push` at line 58 throws, and the cycle is abandoned without writing. A "__proto__" label also writes `investment` onto `Object.prototype` first. | one holding whose sector is "constructor" (`PrototypeKeys.ConstructorSectorAborts`) | every label starts its own entry, e.g. with `Object.create(null)` or a `Map`; proved in `SectorAggregation.SectorKeysExact` | high; not executed | `PrototypeKeys.AccumulateAsWritten` | `SectorAggregation.Accumulated` |
