# QuantTrade dashboard core, modelled in Dafny

The dashboard is a browser page for a mock stock-trading interface. Almost all of it
draws charts, fills tables with random numbers and wires up buttons. This project
models the four parts of `script.js` that make decisions or keep state:

- **Classifier** (`classifier.dfy`). `analyzeStock` looks at one sample (price,
  percentage change, volume, ranking period) and suggests 买入 / 卖出 / 观望
  (buy / sell / hold). It uses a per-period volume threshold, four change bands, an
  unclamped valuation percentile and a nine-branch if/else-if chain, then adds at
  most one sector note (白酒, 新能源, 银行). The rationale is kept abstract: the branch
  taken (`Rule`) plus an optional `SectorNote`.
- **Watchlist** (`watchlist.dfy`). This is the `myStocks` global: an ordered list of
  entries keyed by stock code. `addStock` trims both inputs, rejects an empty field or
  a code that is already listed, and otherwise appends one entry. `removeStock`
  filters a code out. `loadMyStocks` uses the saved list, or seeds three default
  entries when nothing is saved.
- **Alerts** (`alerts.dfy`). There is an optional buy threshold and an optional sell
  threshold. The two setters ignore a price that does not parse. On each monitoring
  tick a threshold fires when the index price reaches it (at or below for buy, at or
  above for sell). A threshold that fires is then deleted.
- **Scheduler** (`scheduler.dfy`). The browser's live intervals are a map from handle
  to job. Auto-refresh keeps its handle in a global and always stops before it starts.
  The auto-trade and data-scraper starters do not stop first.

Each part that the page changes in place is a class (`Watchlist.Store`,
`Alerts.Monitor`, `Scheduler.Page`). Its methods are specified against pure functions
(`Watchlist.Add`, `Watchlist.Without`, `Alerts.Tick`, `Scheduler.LiveOf`). The lemmas
are proved about those functions.

The comment on script.js:580 says the valuation percentile lies "between 0 and 1"
(`0-1之间`). The code does not clamp it, so a price outside 0.8–1.2 times the base price
gives a value outside [0, 1]. The model follows the code
(`Classifier.PercentileUnclamped`). The caller that builds the ranking handles `'week'`
and `'month'` as periods (script.js:510-514). The threshold at script.js:570, however,
compares only with `'day'` and `'week'` and gives 8000 to every other string. The model
does the same (`Classifier.VolumeThreshold`).

## Model

| member | source | states |
|---|---|---|
| Classifier.VolumeThreshold | script.js:570 | The heavy-volume threshold is 500 exactly for `day`, 2000 exactly for `week` and 8000 for every other period string. |
| Classifier.ChangeBands | script.js:574-577 | The four change flags are pairwise exclusive. ±3 is moderate, not strong. A change of exactly 0 sets none of the four flags. |
| Classifier.Percentile | script.js:580 | The percentile times 0.4·base equals price − 0.8·base, with no clamping. |
| Classifier.PercentileUnclamped | script.js:580 | The percentile is 0 at 0.8·base and 1 at 1.2·base. It is negative exactly when the price is below 0.8·base, and above 1 exactly when the price is above 1.2·base. |
| Classifier.PercentileMonotone | script.js:580 | A higher price never gives a lower percentile. |
| Classifier.Decide | script.js:583-610 | The chosen branch's condition holds, and no earlier row's condition holds. |
| Classifier.ExactlyOneRule | script.js:583-610 | Any rule whose guard holds, with no earlier guard holding, is the branch the chain picks: the first matching row wins. |
| Classifier.NoteFor | script.js:613-619 | Each of the three notes is given exactly when its sector and condition hold (白酒 with percentile < 0.4, 新能源 with a strong rise, 银行 with percentile < 0.3). Otherwise there is no note. |
| Classifier.AnalyzeStock | script.js:565-622 | The result's branch is the first row of the table whose guard holds. The suggestion is that row's buy / sell / hold. The sector note is the one `NoteFor` gives for the stock's sector, percentile and change. |
| Classifier.SellIff | script.js:583-610 | The result is "sell" exactly when the change is a strong rise and the percentile is above 0.7 (heavy volume) or above 0.8 (otherwise). |
| Classifier.BuyIff | script.js:583-610 | The result is "buy" exactly on a heavy-volume moderate rise, or on a strong fall with the percentile below 0.3 (heavy volume) or below 0.2 (otherwise). |
| Classifier.SellNeedsStrongRise | script.js:583-610 | A "sell" implies change > 3 and percentile > 0.7. |
| Classifier.CalmMeansHold | script.js:583-610 | Without heavy volume, a change in [−3, 3] always gives "hold". |
| Classifier.SellMonotoneInPrice | script.js:580-610 | Raising only the price keeps a "sell" a "sell". |
| Classifier.BuyAntitoneInPrice | script.js:580-610 | Lowering only the price keeps a "buy" a "buy". |
| Classifier.SectorOnlyAddsNote | script.js:612-621 | Changing the sector never changes the suggestion or the branch. |
| Classifier.OtherSectorNoNote | script.js:613-619 | A sector other than the three named ones never gets a note. |
| Classifier.MoutaiDip | script.js:565-622 | Base 1800, price 1450, change −4, volume 800, `day` gives "buy" by the first rule, with the 白酒 note. |
| Watchlist.LeadingSpaces | script.js:1082-1083 | Counts the ECMAScript white space at the start of the input: every counted character is white space, and the next one (if any) is not. |
| Watchlist.TrailingSpaces | script.js:1082-1083 | Counts the ECMAScript white space at the end of the input: every counted character is white space, and the one before them (if any) is not. |
| Watchlist.Trim | script.js:1082-1083 | The trimmed text is the input's slice that starts after the leading white space, with only white space after it. It is empty exactly when the input is all white space. Otherwise it starts and ends with a non-space character. |
| Watchlist.TrimIdempotent | script.js:1082-1083 | Trimming twice is the same as trimming once. |
| Watchlist.AddOutcomeOf | script.js:1085-1096 | Reports a missing field exactly when the trimmed code or name is empty. Reports a duplicate exactly when both are present and the trimmed code is already listed. |
| Watchlist.Add | script.js:1081-1114 | A rejected add leaves the list unchanged. An accepted add appends exactly one entry (trimmed name and code, given quote) and leaves the earlier entries untouched. |
| Watchlist.Without | script.js:1118 | No entry with the code remains. An entry is kept exactly when it was present with another code. The list never grows. |
| Watchlist.Defaults | script.js:1131-1135 | The default list holds codes 600519, 601318 and 600036, in that order, and they are unique. |
| Watchlist.AddKeepsCodesUnique | script.js:1090-1101 | With unique codes, the list after an add still has unique codes. A non-empty code and name always leave that code listed. |
| Watchlist.AddTwiceRejected | script.js:1090-1094 | After a successful add, a second add of the same code is rejected and changes nothing. |
| Watchlist.WithoutAbsent | script.js:1118 | Removing an absent code leaves the list unchanged. |
| Watchlist.WithoutConcat | script.js:1118 | Filtering distributes over concatenation, so the remaining entries keep their relative order. |
| Watchlist.RemoveDeletesOne | script.js:1118 | With unique codes, removing the code at position i gives exactly the list without position i. |
| Watchlist.WithoutKeepsCodesUnique | script.js:1118 | Removing keeps codes unique. |
| Watchlist.RemoveUndoesAdd | script.js:1081-1118 | Removing a freshly added code gives back the original list. |
| Watchlist.EditsKeepCodesUnique | script.js:1081-1122 | Codes stay unique across any sequence of adds and removes. |
| Watchlist.Store.constructor | script.js:1188 | The watchlist starts empty. |
| Watchlist.Store.AddStock | script.js:1081-1114 | Returns the add outcome. The new list is `Add` of the old one: it changes only on success, appending exactly the new entry, and codes stay unique. |
| Watchlist.Store.RemoveStock | script.js:1117-1122 | The new list is the filtered old list. No entry has that code. An absent code changes nothing. Uniqueness is kept. |
| Watchlist.Store.LoadMyStocks | script.js:1125-1139 | Uses the saved list when there is one. Otherwise it seeds the three defaults, which have unique codes. |
| Alerts.Tick | script.js:924-946 | Each side fires exactly when its threshold is set and reached (buy at or below, sell at or above; `NaN` reaches nothing). A fired side becomes unset and an unfired side is unchanged. |
| Alerts.Run | script.js:921-947 | One tick result per price reading. The first result is `Tick` of the saved thresholds and the first reading. The rest is the run from the thresholds that tick leaves. |
| Alerts.UnsetNeverFires | script.js:931-944 | A side whose threshold is unset never fires on any feed. |
| Alerts.FiresOnFirstCrossing | script.js:931-944 | A set threshold fires on reading i exactly when reading i reaches it and no earlier reading did. |
| Alerts.FiresAtMostOnce | script.js:931-944 | One saved threshold never fires on two ticks of a feed. |
| Alerts.BuyAlertExample | script.js:931-936 | A buy threshold of 3200 over the readings 3250, 3210, 3195 fires only on the third tick, and is then unset. |
| Alerts.BothFireTogether | script.js:931-944 | The buy and sell alerts can fire on the same tick, and both then become unset. |
| Alerts.Monitor.SetBuyAlert | script.js:854-864 | A parsed price replaces the buy threshold and leaves the sell threshold alone. `NaN` changes nothing. |
| Alerts.Monitor.SetSellAlert | script.js:867-877 | A parsed price replaces the sell threshold and leaves the buy threshold alone. `NaN` changes nothing. |
| Alerts.Monitor.CheckPrice | script.js:924-946 | Reports which alerts fired and leaves exactly the thresholds that `Tick` computes. |
| Scheduler.StopAutoRefreshAsWritten | script.js:430-434 | While the global is undeclared, reading it throws a ReferenceError before any state changes. Once it is declared, the stop clears the stored interval (if any) and leaves the handle null. |
| Scheduler.StartAutoRefreshAsWritten | script.js:405-427 | Throws exactly when its first step, the stop, throws, so nothing changes while the global is undeclared. Otherwise the stored interval is cleared and a new refresh interval with a new handle is stored. |
| Scheduler.ToggleAsWritten | script.js:359-367 | A sequence of switch changes runs a start or a stop per change. Whether the global is declared never changes, and the next handle never decreases. |
| Scheduler.AsWrittenNeverRefreshes | script.js:430-434 | As written, the global is undeclared, so every start and stop throws and no sequence of them changes any state. |
| Scheduler.DeclaredStartLeavesOne | script.js:405-434 | If the global exists, the as-written start leaves exactly one refresh interval: the new one. |
| Scheduler.Page.StopAutoRefresh | script.js:430-438 | The handle is null afterwards and no refresh interval is live. Only the old handle's interval is cleared. Stopping while stopped changes nothing. |
| Scheduler.Page.StartAutoRefresh | script.js:405-427 | Afterwards exactly one refresh interval is live, with a new handle, whatever the prior state. Other jobs' intervals are unchanged. |
| Scheduler.Page.StartAutoTrade | script.js:696-701 | Adds one new auto-trade interval without clearing an earlier one. |
| Scheduler.Page.StopAutoTrade | script.js:704-709 | Clears only the stored auto-trade interval and nulls the handle. |
| Scheduler.Page.StartScraper | script.js:782-787 | Adds one new scraper interval without clearing an earlier one. |
| Scheduler.Page.StopScraper | script.js:790-795 | Clears only the stored scraper interval and nulls the handle. |
| Scheduler.StartTwice | script.js:405-427 | Starting twice leaves one live refresh interval but two live auto-trade intervals. The at-most-one invariant holds for refresh only. |

## Left out

- Chart.js setup, DOM event wiring, `renderMyStocks`, `showNotification` and the browser Notification API: presentation only. The model returns which notification would be shown (`AddOutcome`, fired flags) instead.
- All `Math.random` data (`generateVolumeRankingData` rows, `updateMarketData`, `initMarketData`, `executeAutoTrade`, `scrapeData`, `testScraper`, `generateStockData`, `getRandomColor`): the random sample or quote is a parameter.
- `localStorage` and JSON (`saveMyStocks`, the auto-refresh and auto-trade settings load/save, `loadAlertSettings`, the alert-method checkboxes): stored values are plain fields or `Option` parameters. Malformed saved JSON, which makes `JSON.parse` throw, is not modelled.
- Number and text formatting (`toFixed`, `toLocaleString`, `Intl.NumberFormat`, `formatCurrency`, `formatPercent`) and the exact Chinese rationale strings: the rationale is the abstract `Rule` plus `SectorNote`.
- IEEE double arithmetic: prices, changes and volumes are exact reals. For example, `1800 * 0.8` rounding is not modelled.
- `parseFloat` of input text: a parse is `Option<real>`, with `None` for `NaN`. A parse giving ±Infinity is not modelled.
- Timer timing: the interval lengths (`parseInt(...) * 1000`, 30000 ms, the scrape interval) and what each tick does are not modelled. Only which intervals are live is modelled. The monitoring interval of `startPriceMonitoring` keeps no handle, so it is a feed of price readings (`Alerts.Run`).
- Classifier.AnalyzeStock: requires a positive base price. All twenty configured symbols have one. A zero base price would divide by zero in the script.
- Watchlist.Store.LoadMyStocks: the list is taken as it was saved. Unique codes are promised only when the saved list has them, because the script does not check.
- Scheduler.Page.StopAutoTrade: the auto-trade and scraper globals are also never declared. The starters create them by assignment, so the model starts them as null. As written, a stop before any start would throw. The model assumes that the page's markup starts with the auto-trade switch unchecked and the stop-scraper button disabled; the markup is not part of this model.

## Findings

| source | as written | input that shows it | evidently intended | confidence | as-written member | corrected member |
|---|---|---|---|---|---|---|
| script.js:430-434 | `stopAutoRefresh` reads the global `autoRefreshInterval`, which no statement declares. The only assignment (line 413) runs after that read in `startAutoRefresh`. | Turning the auto-refresh switch on in a fresh page: the read throws a ReferenceError before `setInterval`. No refresh interval is ever created, and the settings are never saved. | The global is declared with an initial null. The first stop is then a no-op, and start arms exactly one refresh interval. | not executed; high, unless another script or an element id on the page defines that global | Scheduler.AsWrittenNeverRefreshes | Scheduler.Page.StartAutoRefresh |
