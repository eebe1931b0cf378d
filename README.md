# MyMoltbot tools, modelled in Dafny

This project models the decision logic of the MyMoltbot automation tools and
proves properties of it:

- **The meme-alpha scanner** (`tools/meme-alpha/dex_push.js`), in modules
  `DexPush` (pair selection, scoring, the GMGN link) and `DexScan` (the run).
  - Candidates are collected from the three Dexscreener listing feeds: first
    occurrence wins, only accepted chains, at most `--limit` of them.
  - For each candidate the best pair on its chain is picked.
  - The pair is scored with four hard gates, the FDV/liquidity penalty and the
    boost penalty. An alert needs a pass and a score of at least 60.
  - A per-pair cooldown map is read, then the gate applies, then the map is
    written.
  - Alerts are deduplicated and ranked, and `lastRunMs` is stamped.
- **The dashboard's daily-snapshot history**
  (`apps/market-dashboard-oi/server/storage.js`), module `Storage`.
  - The Asia/Shanghai day key; the row built from a snapshot.
  - The upsert by day, the sort by day and the trim to the last 60 days.
- **The Hong Kong deals checker** (`tools/tools/hk-deals/check_hk_deals.py`),
  module `HkDeals`.
  - The line parser of the article listing; keyword matching with truncation.
  - The alert lines and the ids marked read.
- **The Solana whale monitor** (`tools/smart-money/sol_whale_monitor.js`),
  module `WhaleMonitor`.
  - Round-robin choice of the RPC endpoint; the retry and backoff schedule of
    an RPC call.
  - The balance-change event filter and checkpointing.
  - The 24-hour per-wallet summary.
- **The US news tool** (`tools/us-news/src`), in modules `NewsLib`
  (`lib.js`), `NewsUpdate` (`update.js`), `NewsDigest` (`digest.js`) and
  `NewsReport` (`report.js`).
  - The Markdown item formatter.
  - The insert-if-absent merge of feed items into the store.
  - The time-window and tag digest, and the report with its warnings and
    staleness line.

Shared modules:

- `Wrappers`: Option and Result.
- `Seqs`: a stable insertion sort `SortBy` with its sortedness, permutation
  and "determined up to ties" lemmas, plus filters and slices.
- `JsNumbers`: JavaScript numbers with NaN and the infinities, as far as the
  tools' comparisons and slices can tell them apart.

The imperative parts keep their form. Each is proved against a function that
specifies it:

- The scanner's state is a class `DexScan.Scanner` whose `RunWorkers` loop
  updates `sentPairs`.
- The news store is a class `NewsUpdate.Store` whose merge loops insert into
  `items`.
- The whale monitor's state is a class `WhaleMonitor.Monitor` holding the
  checkpoints, the events file and the event counter. The RPC selector is a
  class `WhaleMonitor.RpcSelector`.
- The article parser, the matcher, the summary aggregation (a `map`
  accumulator), the dedup map and the line-pushing loops are methods with
  loop invariants.

Missing JSON fields are `None`, or `""` for strings whose only use is a
truthiness test. JavaScript numbers are `real`, except timestamps, which are
integer milliseconds. `Math.round(x)` is `Floor(x + 0.5)`.

The score is monotone in liquidity except at zero liquidity: there
the FDV/liquidity ratio is Infinity, so the pair gets neither the flag nor
the 15-point penalty, while a tiny positive liquidity gets both.
`DexPush.ZeroLiquidityEscapesFdvPenalty` exhibits this, and
`DexPush.ScoreMonotone` states the monotonicity that does hold.

## Model

| member | source | states |
|---|---|---|
| DexPush.PairBeforeIsTotalPreorder | tools/meme-alpha/dex_push.js:92-94 | The pair comparator (liquidity descending, then 1h volume descending) is a total preorder, so the sort is well defined. |
| DexPush.PickBestPair | tools/meme-alpha/dex_push.js:87-96 | None exactly when there are no pairs or none on the chain. Otherwise the pair is one of the input pairs, on the chain, with maximal liquidity and, among those, maximal 1h volume (missing values read as 0). |
| DexPush.MetricsOf | tools/meme-alpha/dex_push.js:99-104 | The ratio `fdv / liq` is finite exactly when liquidity is positive (otherwise Infinity). |
| DexPush.RawScore | tools/meme-alpha/dex_push.js:121-124 | The pre-penalty score, three sub-scores capped at 40, 35 and 20, is at most 95. |
| DexPush.Clamp | tools/meme-alpha/dex_push.js:128 | `Math.max(0, Math.min(100, v))` lies in [0, 100]. |
| DexPush.PushRanked | tools/meme-alpha/dex_push.js:109-118 | A conditional push of a reason ranked above all earlier ones keeps the reasons in strictly increasing rank. |
| DexPush.ReasonsForMembers | tools/meme-alpha/dex_push.js:109-118 | A reason is in the pushed list exactly when its condition holds. |
| DexPush.ReasonsForRanked | tools/meme-alpha/dex_push.js:109-118 | The reasons come out in the order liq, vol5, vol1, tx5, fdv/liq, boosted, each at most once. |
| DexPush.ScorePair | tools/meme-alpha/dex_push.js:98-131 | The metrics are those of the pair. The score is an integer in [0, 100]. The reasons are exactly those pushed. `pass` is false exactly when some hard-gate reason is present. |
| DexPush.ReasonsOfPair | tools/meme-alpha/dex_push.js:104-118 | Each gate reason is present exactly when its metric is below its minimum. The ratio flag is present exactly when liquidity is positive and `fdv / liq` exceeds the limit. `boosted` is present exactly when boosted. All appear in push order. |
| DexPush.RoundShift | tools/meme-alpha/dex_push.js:126-128 | Rounding commutes with subtracting an integer penalty. |
| DexPush.RoundMonotone | tools/meme-alpha/dex_push.js:128 | `Math.round` is monotone. |
| DexPush.ScoreIsRoundedRawMinusPenalties | tools/meme-alpha/dex_push.js:121-128 | The score is `max(0, round(raw) - 15·[ratio flag] - 5·[boosted])`: the two penalties stack and only the floor at 0 clamps. |
| DexPush.BoostOnlyPenalizes | tools/meme-alpha/dex_push.js:118-127 | Being boosted never changes `pass`. It appends `boosted` as the last reason and lowers the score by 5, down to 0. |
| DexPush.RawScoreMonotone | tools/meme-alpha/dex_push.js:121-124 | The raw score does not decrease when liquidity, volumes and transactions grow. |
| DexPush.FdvFlagAntitone | tools/meme-alpha/dex_push.js:104-115 | With a non-negative limit, growing a positive liquidity or shrinking FDV never adds the ratio flag. |
| DexPush.ScoreMonotone | tools/meme-alpha/dex_push.js:104-128 | The score does not decrease when volumes and transactions grow, FDV shrinks and liquidity grows from a positive value. |
| DexPush.ZeroLiquidityEscapesFdvPenalty | tools/meme-alpha/dex_push.js:104-126 | A pair with zero liquidity and a large FDV gets no ratio flag and scores 55. The same pair with liquidity 1 is flagged and scores 40. |
| DexPush.HealthyPairAlerts | tools/meme-alpha/dex_push.js:98-131 | A concrete healthy pair passes all gates with score 85, above the alert threshold. |
| DexPush.GmgnUrl | tools/meme-alpha/dex_push.js:43-48 | A link exists exactly for a non-empty token on `solana` or `base`. It starts with `https://gmgn.ai/sol/token/` on Solana and `https://gmgn.ai/base/token/` on Base, and ends with `track_` followed by the token address. |
| DexScan.AcceptedRows | tools/meme-alpha/dex_push.js:198-202 | The rows kept from one feed are at most its rows. |
| DexScan.AcceptedRowsAdmissible | tools/meme-alpha/dex_push.js:199-202 | Every kept row is on an accepted chain and has a non-empty chain and token. |
| DexScan.Stream | tools/meme-alpha/dex_push.js:196-202 | The accepted rows of the three feeds in feed order, never more than the feeds hold together. `StreamAdmissible` gives the chain and token condition on every candidate. |
| DexScan.StreamAdmissible | tools/meme-alpha/dex_push.js:196-202 | The same holds across the three feeds, read in the order profiles, boostsTop, boostsLatest (a non-array feed contributes nothing). |
| DexScan.FirstOccurrences | tools/meme-alpha/dex_push.js:203-206 | Keeping the first candidate per `chainId:tokenAddress` key never lengthens the stream. |
| DexScan.FirstOccurrencesFacts | tools/meme-alpha/dex_push.js:203-206 | The kept candidates have distinct keys, all come from the stream, and every key of the stream is kept. |
| DexScan.FirstOccurrenceKept | tools/meme-alpha/dex_push.js:203-206 | A candidate whose key has not occurred earlier is kept, so the first occurrence wins. |
| DexScan.FirstOccurrencesPrefix | tools/meme-alpha/dex_push.js:203-207 | Extending the stream only extends the kept list, which is what makes the break at the limit sound. |
| DexScan.ConsumedIsPrefix | tools/meme-alpha/dex_push.js:196-210 | What the nested loops have read at any point is a prefix of the whole accepted stream. |
| DexScan.TakeRow | tools/meme-alpha/dex_push.js:199-206 | One row of the inner loop extends `tokens` by that row exactly when it is admissible and its key is unseen. Afterwards `seen` is still the key set of `tokens`. |
| DexScan.TakeRows | tools/meme-alpha/dex_push.js:198-208 | The inner loop leaves the first occurrences of what it read. It stops at the limit or at the end of the feed, and never exceeds the limit (or 1 for a limit below 1). |
| DexScan.CollectCandidates | tools/meme-alpha/dex_push.js:194-210 | The candidates are a prefix of the first occurrences of the accepted stream. For a limit of at least 1 there are `min(limit, all)` of them, never more than `max(limit, 1)`. Keys are distinct; chains are accepted. |
| DexScan.CollectedFacts | tools/meme-alpha/dex_push.js:194-210 | Any prefix that stops at the limit or at the end has those size, distinctness and chain properties. |
| DexScan.BoostedKeys | tools/meme-alpha/dex_push.js:188-192 | The boosted set holds exactly the `chainId:tokenAddress` keys of the boost rows on accepted chains. |
| DexScan.Qualify | tools/meme-alpha/dex_push.js:223-250 | Ignoring the cooldown, a candidate alerts exactly when a pair is picked on its chain and that pair's score passes every gate with a score of at least 60, with the boost taken from the candidate's key. The alert carries that score, its reasons and metrics, the run's timestamp, the candidate's chain and token, and the picked pair's address and url. |
| DexScan.Cooling | tools/meme-alpha/dex_push.js:229-230 | A pair key is cooling exactly when it was last sent less than `cooldownMs` ago. A key never sent counts as sent at time 0. `ScanStep` uses this to gate each alert. |
| DexScan.Evaluate | tools/meme-alpha/dex_push.js:224-250 | The worker alerts exactly when the candidate qualifies and its `chainId:pairAddress` is not cooling down (an absent key counts as sent at 0). |
| DexScan.HealthyCandidateAlerts | tools/meme-alpha/dex_push.js:223-250 | A candidate whose only pair is a healthy one, not boosted and not cooling down, alerts with score 85, no reasons, and that pair's address and url: the trigger is live. |
| DexScan.Scan | tools/meme-alpha/dex_push.js:217-258 | The sequential worker loop yields at most one alert per candidate. |
| DexScan.Qualifications | tools/meme-alpha/dex_push.js:224-236 | Position `i` holds candidate `i`'s cooldown-free verdict. |
| DexScan.FirstPerKey | tools/meme-alpha/dex_push.js:229-253 | Every alert came from a qualifying candidate whose key was not cooling at the start of the run. |
| DexScan.QualificationsPrefix | tools/meme-alpha/dex_push.js:217-258 | The verdicts of a prefix of the candidates are the prefix of the verdicts. |
| DexScan.ScanStep | tools/meme-alpha/dex_push.js:229-253 | One candidate of the loop: it alerts exactly when it qualifies and its key is neither cooling at the start nor already alerted this run. The map changes only at that key, to `now`. |
| DexScan.ScanIsFirstPerKey | tools/meme-alpha/dex_push.js:217-258 | The loop's alerts are the first qualifying alert per pair key among what was not cooling. The map afterwards is the start map stamped with `now` at exactly those keys. |
| DexScan.AlertsQualify | tools/meme-alpha/dex_push.js:236 | Every alert of the run has `pass` (no gate reason), a score at least 60 and the run's timestamp. |
| DexScan.OncePerKey | tools/meme-alpha/dex_push.js:228-252 | With a positive cooldown, no pair key alerts twice in a run. |
| DexScan.StampChangesOnlyAlertKeys | tools/meme-alpha/dex_push.js:252 | Recording changes the map only at alerted keys, which become `now`. Every other key keeps its value, and nothing else is added. |
| DexScan.Stamp | tools/meme-alpha/dex_push.js:252 | The map after recording holds the old keys and the alerted keys, and every alerted key maps to `now`. |
| DexScan.UniqWellFormed | tools/meme-alpha/dex_push.js:264-277 | The dedup map and its insertion order agree: distinct keys, and each listed key is in the map. |
| DexScan.UniqOf | tools/meme-alpha/dex_push.js:264-277 | The dedup loop as a fold over the alerts: a key is inserted once, in first-seen order, and a strictly higher score replaces its alert in place; its properties are `UniqWellFormed`, `UniqKeys` and `UniqKeepsFirstBest`. |
| DexScan.Values | tools/meme-alpha/dex_push.js:279 | `uniq.values()` has one entry per inserted key, in insertion order. |
| DexScan.UniqKeys | tools/meme-alpha/dex_push.js:266-267 | A key is in the dedup map exactly when it is non-empty and is some alert's `pairAddress or tokenAddress`. |
| DexScan.UniqKeepsFirstBest | tools/meme-alpha/dex_push.js:269-276 | The kept alert for a key has the highest score among that key's alerts; a duplicate replaces it only with a strictly higher score, so ties keep the earliest. |
| DexScan.Dedup | tools/meme-alpha/dex_push.js:264-277 | The dedup loop over the `uniq` map computes exactly the specified map's values. |
| DexScan.DedupDistinct | tools/meme-alpha/dex_push.js:264-277 | The deduplicated output has one alert per non-empty dedup key, all taken from the alerts. |
| DexScan.AlertBeforeIsTotalPreorder | tools/meme-alpha/dex_push.js:279-292 | The four-key comparator (score, vol1, liq, tx5, all descending) is a total preorder. |
| DexScan.Ranked | tools/meme-alpha/dex_push.js:279-292 | The ranked output is sorted by the four keys and is a permutation of the deduplicated alerts. |
| DexScan.RankingDeterminedUpToTies | tools/meme-alpha/dex_push.js:279-292 | Any other sorted permutation agrees with it on all four keys at every position: the order is determined up to full ties. |
| DexScan.LookupsOf | tools/meme-alpha/dex_push.js:223 | One pair lookup per candidate. |
| DexScan.ScanPrefixStep | tools/meme-alpha/dex_push.js:217-258 | The loop over a prefix extended by one candidate is the prefix's loop followed by that candidate's step. |
| DexScan.Scanner.constructor | tools/meme-alpha/dex_push.js:50-59 | `loadState`: the parsed file's state, or an empty `sentPairs` and `lastRunMs` 0 when there is none. |
| DexScan.Scanner.RunWorkers | tools/meme-alpha/dex_push.js:217-258 | The worker pool run as one sequential loop: the alerts are the first qualifying alert per pair key not cooling at the start. `sentPairs` is stamped with `now` at exactly those keys. `lastRunMs` is untouched. |
| DexScan.Scanner.Run | tools/meme-alpha/dex_push.js:170-295 | A failed feed fetch, or no chains, fails the run and leaves the state alone. Otherwise: candidates as collected, alerts from the worker loop, output deduplicated and ranked, `sentPairs` stamped, `lastRunMs = now`, and state saved unless dry-run. |
| DexScan.Scanner.Pipeline | tools/meme-alpha/dex_push.js:194-296 | For fetched feeds and configured chains: the candidates as collected, the alerts of the worker loop, the deduplicated and ranked output, `sentPairs` stamped at the alert keys, `lastRunMs = now`, and the state saved unless dry-run. |
| Storage.DayKeyShanghai | apps/market-dashboard-oi/server/storage.js:26-30 | The key is the day number `d` with `d·24h <= ts + 8h < (d+1)·24h`. |
| Storage.SameShanghaiDay | apps/market-dashboard-oi/server/storage.js:26-30 | Two instants get key `d` exactly when both lie in UTC+8 day `d`. |
| Storage.KeyOfWindow | apps/market-dashboard-oi/server/storage.js:26-30 | Every instant of a UTC+8 day gets that day's key. |
| Storage.DayKeyMonotone | apps/market-dashboard-oi/server/storage.js:26-30 | Later instants never get an earlier day. |
| Storage.MakeRow | apps/market-dashboard-oi/server/storage.js:34-61 | The row carries the snapshot's day key and `asOf`, each metric (null when missing), and availability flags that are true only when the snapshot says true. |
| Storage.LoadHistory | apps/market-dashboard-oi/server/storage.js:11-19 | A parsed array is the history; anything else (not an array, unreadable, unparsable) is empty. |
| Storage.FindDay | apps/market-dashboard-oi/server/storage.js:63 | `findIndex`: the first row with that day, or -1 exactly when there is none. |
| Storage.UpsertReplacesFirstOrAppends | apps/market-dashboard-oi/server/storage.js:63-65 | The first row of the day is replaced with every other position unchanged, or, when the day is absent, the row is appended. |
| Storage.Upsert | apps/market-dashboard-oi/server/storage.js:63-65 | The upserted history contains the new row and is at most one row longer than before. |
| Storage.UpsertKeepsOtherDays | apps/market-dashboard-oi/server/storage.js:63-65 | Rows of other days are kept and nothing is invented. As multisets, the result is input plus new row minus the replaced row. |
| Storage.DayBeforeIsTotalPreorder | apps/market-dashboard-oi/server/storage.js:68 | Ordering rows by day is a total preorder. |
| Storage.UpsertDailySnapshot | apps/market-dashboard-oi/server/storage.js:32-72 | The returned row is the constructed row. The saved history is the last 60 of the upserted rows sorted by day. |
| Storage.SavedIsLatestSorted | apps/market-dashboard-oi/server/storage.js:68-70 | The saved history is sorted by day. It has `min(60, n)` rows, all from the upserted history, and every dropped row is no later than any kept row. |
| HkDeals.Strip | tools/tools/hk-deals/check_hk_deals.py:99-105 | `str.strip()` returns a slice of its input with no whitespace at either end. |
| HkDeals.StripIsTrimmedSlice | tools/tools/hk-deals/check_hk_deals.py:99-105 | What `strip` removes on both sides is whitespace, in the sense of Python's `isspace`. |
| HkDeals.HeaderParses | tools/tools/hk-deals/check_hk_deals.py:87-93 | A line with the header layout (whitespace, `[digits]`, whitespace, `[new]`, then a title) parses to the id spelt by the digits and the stripped title. |
| HkDeals.ParseHeader | tools/tools/hk-deals/check_hk_deals.py:87-93 | The header parse: `HeaderParses` and `HeaderParsesOnly` together show it succeeds exactly on the lines the header pattern matches, with the id and stripped title. |
| HkDeals.HeaderParsesOnly | tools/tools/hk-deals/check_hk_deals.py:60 | Conversely, only lines with the header layout parse. The header of such a line is the id spelt by its digits and the stripped rest. |
| HkDeals.NotAHeader | tools/tools/hk-deals/check_hk_deals.py:60 | A line without `[` never matches the header pattern. |
| HkDeals.TagsExclusive | tools/tools/hk-deals/check_hk_deals.py:100-105 | A stripped line starts with at most one of `Blog:`, `URL:` and `Published:`. |
| HkDeals.Classify | tools/tools/hk-deals/check_hk_deals.py:83-105 | The header test comes first; otherwise the line is read as a field line after stripping. |
| HkDeals.FieldKind | tools/tools/hk-deals/check_hk_deals.py:99-105 | A stripped line sets a field exactly when it starts with that field's tag, and the value is the rest of the line, stripped. |
| HkDeals.LastFieldsPresent | tools/tools/hk-deals/check_hk_deals.py:99-105 | An article has a field exactly when some line of its body carries it (the last such line wins). |
| HkDeals.HeaderIdx | tools/tools/hk-deals/check_hk_deals.py:82-94 | The header positions are increasing and each is a header line. |
| HkDeals.HeaderIdxComplete | tools/tools/hk-deals/check_hk_deals.py:82-94 | Every header line is listed. |
| HkDeals.Expected | tools/tools/hk-deals/check_hk_deals.py:76-110 | One article per header line. |
| HkDeals.StepHeader | tools/tools/hk-deals/check_hk_deals.py:84-94 | A header closes the open article (if any) into `out` and opens a new one with no fields. |
| HkDeals.StepOther | tools/tools/hk-deals/check_hk_deals.py:96-105 | Any other line updates the open article's field, or is ignored before the first header. |
| HkDeals.FinalState | tools/tools/hk-deals/check_hk_deals.py:107-110 | Appending the open article at the end yields exactly the reference articles. |
| HkDeals.UpdateFields | tools/tools/hk-deals/check_hk_deals.py:99-105 | The field assignment of a non-header line is the one its classification dictates. |
| HkDeals.ParseLine | tools/tools/hk-deals/check_hk_deals.py:83-105 | One iteration of the parser loop preserves the parser invariant: the closed articles are the segments up to the last header, the open one is the last segment. |
| HkDeals.ParseArticles | tools/tools/hk-deals/check_hk_deals.py:76-110 | `parse_articles` returns exactly the reference: one article per header line in header order, with the header's id and stripped title and the last value of each field line up to the next header. Lines before the first header are ignored. |
| HkDeals.Haystack | tools/tools/hk-deals/check_hk_deals.py:158 | The searched text is title, blog and url on three lines, missing ones empty. |
| HkDeals.SelectMatches | tools/tools/hk-deals/check_hk_deals.py:156-165 | The matched list is the order-preserving filter of the articles by the keyword predicate, then `matched[:max]` (negative `max` counting from the end). |
| HkDeals.MatchedAreHits | tools/tools/hk-deals/check_hk_deals.py:156-165 | Every reported article is a listed article that a pattern hits. |
| HkDeals.MetaOf | tools/tools/hk-deals/check_hk_deals.py:169-174 | The meta text is empty exactly when neither blog nor date is present and non-empty. Otherwise it is the present ones joined by ` · `. |
| HkDeals.JoinWith | tools/tools/hk-deals/check_hk_deals.py:174 | `sep.join` of zero, one and two parts. |
| HkDeals.ArticleLines | tools/tools/hk-deals/check_hk_deals.py:175-180 | `- title（meta）`, or `- title` without meta, followed by the indented URL line only when a URL is present. |
| HkDeals.AlertBody | tools/tools/hk-deals/check_hk_deals.py:168-180 | At least one line per matched article. |
| HkDeals.IdsOf | tools/tools/hk-deals/check_hk_deals.py:183-185 | The ids marked read are the matched articles' ids, in order. |
| HkDeals.ScanMessage | tools/tools/hk-deals/check_hk_deals.py:138-143 | A blog scan prints nothing exactly when it succeeded. |
| HkDeals.ScanMessages | tools/tools/hk-deals/check_hk_deals.py:137-143 | At most one message per blog. |
| HkDeals.ScanBlogs | tools/tools/hk-deals/check_hk_deals.py:137-143 | The scan loop prints each blog's timeout or failure message, in order. |
| HkDeals.AlertLines | tools/tools/hk-deals/check_hk_deals.py:167-180 | The heading, then each matched article's lines, in order. |
| HkDeals.CheckDeals | tools/tools/hk-deals/check_hk_deals.py:113-190 | A failed listing exits 2 after the scan messages and marks nothing. A listing timeout is not caught: exit 1, with only the scan messages printed. Otherwise, with no hit only the scan messages are printed and the status is 0. With hits the outcome is `AlertOutcome` for the first `max` hits. |
| HkDeals.FirstTimeout | tools/tools/hk-deals/check_hk_deals.py:182-188 | The position of the first `read` call that times out, or the number of calls when none does: no call before it times out. |
| HkDeals.MarkRead | tools/tools/hk-deals/check_hk_deals.py:182-188 | The marking loop reports a timeout exactly when some call times out. The ids passed to `read` are the matched ids up to and including the first timeout, or all of them, in order. |
| HkDeals.AlertOutcome | tools/tools/hk-deals/check_hk_deals.py:167-190 | After a match, the alert is printed. The status is 1 exactly when marking is on and some `read` call times out, else 0. Without marking no id is passed. Otherwise either every matched id is passed, or those up to the first timed-out call, with no earlier call timing out. |
| HkDeals.ReportMatches | tools/tools/hk-deals/check_hk_deals.py:167-190 | Printing the alert and running the marking loop gives exactly `AlertOutcome`. |
| WhaleMonitor.ClampLimit | tools/smart-money/sol_whale_monitor.js:34 | `LIMIT` is NaN only for NaN input, otherwise in [5, 200], and equal to the input when that is already in range. |
| WhaleMonitor.RpcSelector.UrlFor | tools/smart-money/sol_whale_monitor.js:28-32 | The `k`-th pick is a configured endpoint, and none exactly when nothing is configured. |
| WhaleMonitor.RpcSelector.constructor | tools/smart-money/sol_whale_monitor.js:23-27 | The selector starts with `rpcIdx` 0. |
| WhaleMonitor.RpcSelector.Pick | tools/smart-money/sol_whale_monitor.js:28-32 | `pickRpcUrl` returns the endpoint of the current pick and advances the index. |
| WhaleMonitor.RoundRobin | tools/smart-money/sol_whale_monitor.js:27-32 | With `n >= 1` endpoints the `k`-th pick is `RPC_URLS[k mod n]`, so picks cycle with period `n`. |
| WhaleMonitor.Backoff | tools/smart-money/sol_whale_monitor.js:79 | The wait `min(20000, 400·2^attempt)` never exceeds 20 seconds. |
| WhaleMonitor.Settle | tools/smart-money/sol_whale_monitor.js:76-87 | A final reply succeeds exactly when it carries a result; an HTTP status or an error body throws. |
| WhaleMonitor.RpcOutcome | tools/smart-money/sol_whale_monitor.js:69-88 | One wait per retry. The final reply is not retried, and the call succeeds exactly when that reply carries a result. From a valid attempt the retries stop by attempt 6. `RetryStops` and `RetryCount` prove these bounds. |
| WhaleMonitor.Rpc | tools/smart-money/sol_whale_monitor.js:69-88 | `rpc` returns the specified outcome and waits. It makes one pick per request, so the selector advances by the number of retries plus one. |
| WhaleMonitor.RpcOutcomeStep | tools/smart-money/sol_whale_monitor.js:76-87 | A call is its first request, followed, when that reply is retried, by a sleep of `Backoff(attempt)` and the call at `attempt + 1` from the next pick. |
| WhaleMonitor.RetryCount | tools/smart-money/sol_whale_monitor.js:78 | There are at most `6 - attempt` retries: a call from attempt 0 sends at most seven requests. |
| WhaleMonitor.RetryReasons | tools/smart-money/sol_whale_monitor.js:78 | Every retried request got status 429 or >= 500 while fewer than six attempts had been made. |
| WhaleMonitor.RetryStops | tools/smart-money/sol_whale_monitor.js:76-87 | The last reply is not retryable: a success, an error body, a permanent status, or retries used up. |
| WhaleMonitor.BackoffValues | tools/smart-money/sol_whale_monitor.js:79 | The waits double from 400 ms to 12.8 s and add up to 25.2 s over six retries. |
| WhaleMonitor.FindKey | tools/smart-money/sol_whale_monitor.js:135 | `findIndex` gives the first account key equal to the wallet, or -1 exactly when it is absent. |
| WhaleMonitor.EventOf | tools/smart-money/sol_whale_monitor.js:134-161 | An event exists only when the wallet is an account key with numeric pre and post balances and `|delta|/1e9` is not below the threshold. Its delta is `post - pre` and its direction is `in` exactly when the delta is positive. Without an event for a present wallet, a balance is missing or the delta is below the threshold. |
| WhaleMonitor.EventMeetsThreshold | tools/smart-money/sol_whale_monitor.js:142-144 | With a finite threshold, an event's lamport delta is at least the threshold in lamports. |
| WhaleMonitor.BatchRun | tools/smart-money/sol_whale_monitor.js:127-165 | At most one event per signature of the batch. |
| WhaleMonitor.VisitSignature | tools/smart-money/sol_whale_monitor.js:128-144 | The loop body for one signature: an empty one is skipped, a failed lookup stops the run, a missing transaction is skipped, else its event (if any) is emitted. |
| WhaleMonitor.BatchRunStep | tools/smart-money/sol_whale_monitor.js:127-165 | Walking one more signature appends its outcome to the walk. |
| WhaleMonitor.Reverse | tools/smart-money/sol_whale_monitor.js:125 | `sigs.slice().reverse()`: the newest-first list read oldest first. |
| WhaleMonitor.BatchEventsFromBatch | tools/smart-money/sol_whale_monitor.js:127-163 | Every appended event is for the watched wallet and carries a non-empty signature from the batch. |
| WhaleMonitor.TimeOf | tools/smart-money/sol_whale_monitor.js:188 | `e.blockTime or e.observedAt or 0`, with 0 and missing both falsy. |
| WhaleMonitor.Recent | tools/smart-money/sol_whale_monitor.js:185-191 | At most one event per line. |
| WhaleMonitor.RecentMembers | tools/smart-money/sol_whale_monitor.js:185-191 | The recent events are exactly the parsed lines whose time is at least `sinceMs`; malformed lines are skipped. |
| WhaleMonitor.SelectRecent | tools/smart-money/sol_whale_monitor.js:177-191 | The loop keeps, in file order, the recent events among the last 5000 lines with `sinceMs = now - 24h`. |
| WhaleMonitor.KeysInOrder | tools/smart-money/sol_whale_monitor.js:193-196 | At most one accumulator key per event. |
| WhaleMonitor.KeysInOrderMembers | tools/smart-money/sol_whale_monitor.js:195-196 | The keys are exactly the events' `address or 'unknown'`s. |
| WhaleMonitor.KeysInOrderDistinct | tools/smart-money/sol_whale_monitor.js:196 | Each wallet appears once. |
| WhaleMonitor.AbsentKeyStats | tools/smart-money/sol_whale_monitor.js:196 | A wallet without events has zero counts and sums. |
| WhaleMonitor.StatForOther | tools/smart-money/sol_whale_monitor.js:194-200 | An event of another wallet leaves a wallet's accumulator unchanged. |
| WhaleMonitor.StatForSame | tools/smart-money/sol_whale_monitor.js:196-200 | An event of the wallet increments the count and adds the delta to `inSol` when positive, else its magnitude to `outSol`. The accumulator starts fresh with the first event's name. |
| WhaleMonitor.AggregateStep | tools/smart-money/sol_whale_monitor.js:194-200 | One iteration of the `byWallet` loop keeps the map equal to the per-wallet aggregates of the events so far. |
| WhaleMonitor.Aggregate | tools/smart-money/sol_whale_monitor.js:193-200 | The `byWallet` map has one entry per wallet, in order of first appearance, holding that wallet's aggregate. |
| WhaleMonitor.StatFacts | tools/smart-money/sol_whale_monitor.js:197-199 | A wallet's count is its number of events, and both sums are non-negative. |
| WhaleMonitor.StatsInOrder | tools/smart-money/sol_whale_monitor.js:209 | `Object.values(byWallet)` has one accumulator per wallet. |
| WhaleMonitor.SummaryOrdersArePreorders | tools/smart-money/sol_whale_monitor.js:209-210 | Both summary comparators are total preorders. |
| WhaleMonitor.BuildSummary | tools/smart-money/sol_whale_monitor.js:177-211 | The summary object built by the loops equals its specification. |
| WhaleMonitor.SummaryOf | tools/smart-money/sol_whale_monitor.js:177-211 | The summary of the recent events among the last 5000 lines: their count, the top 50 wallets and the latest 20 events (`TopWalletsShape`, `LatestShape`). |
| WhaleMonitor.TopWallets | tools/smart-money/sol_whale_monitor.js:209 | One entry per wallet, up to 50. `TopWalletsShape` gives the order and the contents. |
| WhaleMonitor.TopWalletsShape | tools/smart-money/sol_whale_monitor.js:209 | At most 50 wallets, sorted by `inSol + outSol` descending. Each is some wallet's exact aggregate. |
| WhaleMonitor.Latest | tools/smart-money/sol_whale_monitor.js:210 | The 20 events, or all of them when there are fewer. `LatestShape` gives the order and the window. |
| WhaleMonitor.LatestShape | tools/smart-money/sol_whale_monitor.js:210 | At most 20 events, sorted by time descending, all from the window. |
| WhaleMonitor.Checkpointed | tools/smart-money/sol_whale_monitor.js:167-171 | The wallet's checkpoint becomes `sigs[0]`, the newest, stamped with the time. It is unchanged when the batch or that signature is empty. |
| WhaleMonitor.WalletStepCheckpoints | tools/smart-money/sol_whale_monitor.js:111-171 | A wallet's step touches only that wallet's checkpoint, and a failed step touches none. |
| WhaleMonitor.WalletStep | tools/smart-money/sol_whale_monitor.js:111-171 | One wallet of the loop: skipped when the address is empty or there are no signatures, the failure of a thrown call, or the walk of the batch oldest first; the checkpoint moves only after a walk with no failure (`WalletStepCheckpoints`). |
| WhaleMonitor.WalletsRun | tools/smart-money/sol_whale_monitor.js:111-172 | The wallets in order, checkpoints threaded through, events concatenated, stopping at the first failure (`WalletsRunStep`, `WalletsStop`). |
| WhaleMonitor.Monitor.constructor | tools/smart-money/sol_whale_monitor.js:106-109 | The loaded checkpoints and events file, with `newEvents` 0. |
| WhaleMonitor.Monitor.Append | tools/smart-money/sol_whale_monitor.js:163-164 | One event line is appended and counted; checkpoints are untouched. |
| WhaleMonitor.Monitor.WalkOne | tools/smart-money/sol_whale_monitor.js:127-165 | One signature of the walk appends its event, or returns the failed lookup, which ends the batch with nothing more appended. |
| WhaleMonitor.Monitor.WalkBatch | tools/smart-money/sol_whale_monitor.js:125-165 | The batch, oldest first, appends exactly the walk's events and counts them. It returns the failure that stopped it, and leaves the checkpoints alone. |
| WhaleMonitor.Monitor.ProcessWallet | tools/smart-money/sol_whale_monitor.js:111-171 | One wallet: the checkpoints, the appended lines, the count and the failure are those of the wallet's step. |
| WhaleMonitor.Monitor.RunWallets | tools/smart-money/sol_whale_monitor.js:111-172 | The wallet loop stops at the first failed RPC call. What was appended before it stays appended. |
| WhaleMonitor.Monitor.Run | tools/smart-money/sol_whale_monitor.js:98-217 | No wallets: nothing happens (exit 2). A thrown RPC call: the events so far stay, but the checkpoints are not saved (exit 1). Otherwise the checkpoints are saved and the summary is built from the events file. |
| WhaleMonitor.WalletsRunStep | tools/smart-money/sol_whale_monitor.js:111-172 | One more wallet extends the run by that wallet's step. |
| WhaleMonitor.WalletsStop | tools/smart-money/sol_whale_monitor.js:111-172 | A failure at wallet `i` ends the run there. |
| WhaleMonitor.BatchStops | tools/smart-money/sol_whale_monitor.js:127-165 | Once the walk has failed at signature `i`, the rest of the batch changes nothing. |
| WhaleMonitor.LinesOf | tools/smart-money/sol_whale_monitor.js:163 | One events-file line per event. |
| NewsLib.TrimStart | tools/us-news/src/lib.js:35 | Removes exactly the leading whitespace. |
| NewsLib.TrimEnd | tools/us-news/src/lib.js:35 | Removes exactly the trailing whitespace. |
| NewsLib.Trim | tools/us-news/src/lib.js:35 | No whitespace remains at either end. |
| NewsLib.CollapseSingleSpaced | tools/us-news/src/lib.js:35 | `replace(/\s+/g, ' ')` leaves no whitespace but single plain spaces. |
| NewsLib.CollapseVisible | tools/us-news/src/lib.js:35 | Collapsing keeps every non-whitespace character, in order. |
| NewsLib.CollapseIdentity | tools/us-news/src/lib.js:35 | Collapsing a single-spaced text changes nothing. |
| NewsLib.TrimSingleSpaced | tools/us-news/src/lib.js:35 | Trimming keeps a text single-spaced. |
| NewsLib.TrimVisible | tools/us-news/src/lib.js:35 | Trimming keeps every non-whitespace character. |
| NewsLib.RenderTitleFacts | tools/us-news/src/lib.js:35 | The rendered title has no whitespace at either end and no run of two whitespace characters. It keeps every visible character of the title, or of `(no title)` for a missing one. |
| NewsLib.RenderTitle | tools/us-news/src/lib.js:35 | The title line text: placeholder for an empty title, whitespace runs collapsed, trimmed; its properties are `RenderTitleFacts`, `NoTitle`, `BlankTitle` and `TitleIsOneLine`. |
| NewsLib.NoTitle | tools/us-news/src/lib.js:35 | An empty title renders as `(no title)`. |
| NewsLib.BlankTitle | tools/us-news/src/lib.js:35 | A whitespace-only title is truthy, so it gets no placeholder, and renders empty. |
| NewsLib.When | tools/us-news/src/lib.js:36 | The ` · iso` segment appears exactly when `iso` is truthy. |
| NewsLib.TagSuffix | tools/us-news/src/lib.js:37 | The ` _(…)_` suffix appears exactly when there are tags, joined by `, `. |
| NewsLib.TitleIsOneLine | tools/us-news/src/lib.js:35 | The rendered title holds no newline. |
| NewsLib.MdItemLines | tools/us-news/src/lib.js:34-39 | An item splits into exactly three lines: the feed header, the title and the link (when feed name, date, tags and link hold no newline). |
| NewsLib.ToMdItem | tools/us-news/src/lib.js:34-39 | The three-line Markdown item: the feed header with date and tags, the title, the link (`MdItemLines`). |
| NewsLib.ThreeLines | tools/us-news/src/lib.js:38 | Three newline-free strings joined by newlines split back into those three. |
| NewsLib.ParseDateMaybe | tools/us-news/src/lib.js:13-18 | Null for a falsy value; otherwise the date parser's result, null for an invalid date. |
| NewsUpdate.Or | tools/us-news/src/update.js:32-33 | `a or b` on optional strings: `a` when truthy, else `b`. |
| NewsUpdate.TitleOf | tools/us-news/src/update.js:31 | The title falls back to `''`. |
| NewsUpdate.LinkOf | tools/us-news/src/update.js:32 | The link falls back from `link` to `guid` to `''`. |
| NewsUpdate.IsoOf | tools/us-news/src/update.js:33-34 | An ISO date exists exactly when the first truthy of `isoDate`, `pubDate`, `published` parses. |
| NewsUpdate.ItemOf | tools/us-news/src/update.js:36-47 | The stored record carries the (feed, link, title) key, the feed name, the title, link and date above, the feed's tags (or none), and the fetch time. |
| NewsUpdate.Values | tools/us-news/src/digest.js:28 | `Object.values(store.items)`: one item per key, in insertion order. |
| NewsUpdate.AddItem | tools/us-news/src/update.js:36-48 | An existing id leaves the store unchanged and is never overwritten. A new id adds its record as the last key. |
| NewsUpdate.AddAllStep | tools/us-news/src/update.js:30-49 | One more item of a feed is one more insert-if-absent. |
| NewsUpdate.AddFeed | tools/us-news/src/update.js:26-52 | A feed whose fetch threw leaves the store unchanged. |
| NewsUpdate.AddFeedsStep | tools/us-news/src/update.js:25-53 | One more feed adds its items (or, failing, a warning and nothing else). |
| NewsUpdate.AddFeeds | tools/us-news/src/update.js:25-53 | The merge of all feeds in order, each inserting its items if absent and a failing one adding nothing (`AddFeedsKeeps`, `FailedFeedSkipped`). |
| NewsUpdate.FailedFeeds | tools/us-news/src/report.js:63-65 | At most one failure per feed. |
| NewsUpdate.AddItemFacts | tools/us-news/src/update.js:36-48 | Inserting keeps the store well formed, keeps every existing record, and grows it by one exactly when the id is new. |
| NewsUpdate.AddAllKeeps | tools/us-news/src/update.js:30-49 | A feed's items never overwrite or remove a record. |
| NewsUpdate.AddAllKeys | tools/us-news/src/update.js:36-48 | The keys afterwards are the keys before plus the feed's item keys. |
| NewsUpdate.AddAllFirstWins | tools/us-news/src/update.js:36-48 | A new key is stored with the record of its first item. |
| NewsUpdate.IdOf | tools/us-news/src/update.js:36 | The key is the feed name, the link and the title in that order, separated by two vertical bars; the link sits between them. `IdenticalItemsOnce` and `IdCollision` state its consequences. |
| NewsUpdate.IdenticalItemsOnce | tools/us-news/src/update.js:36-37 | Items with the same feed, link and title share one key, so they are inserted once. |
| NewsUpdate.IdCollision | tools/us-news/src/update.js:36 | The joined text `name|link|title` is not injective: `a|b`,`c`,`d` and `a`,`b|c`,`d` get one id. |
| NewsUpdate.AddFeedsKeeps | tools/us-news/src/update.js:25-53 | The whole merge never overwrites or removes a record. |
| NewsUpdate.FailedFeedSkipped | tools/us-news/src/update.js:50-52 | A failing feed adds nothing to the store and exactly one warning, and the merge goes on. |
| NewsUpdate.FailedFeedsExact | tools/us-news/src/report.js:63-65 | The number of warnings equals the number of feeds whose fetch failed. |
| NewsUpdate.Store.Empty | tools/us-news/src/update.js:22 | The fallback store `{ items: {}, lastRunAt: null }`. |
| NewsUpdate.Store.Add | tools/us-news/src/update.js:36-48 | Inserts when the id is new, and reports whether it did; the store grows by exactly that one. |
| NewsUpdate.Store.MergeFeed | tools/us-news/src/update.js:30-49 | The item loop of one feed performs its inserts-if-absent and counts them. |
| NewsUpdate.Store.MergeFetch | tools/us-news/src/update.js:26-52 | One feed: its items are merged, or its error is returned and nothing changes. |
| NewsUpdate.Store.Merge | tools/us-news/src/update.js:25-53 | Every feed in order: `newCount` is the number of keys added, the failures are those of the failing feeds, and `lastRunAt` is not yet touched. |
| NewsUpdate.Store.Update | tools/us-news/src/update.js:9-55 | Without a configuration nothing changes. Otherwise the merge runs and `lastRunAt` is stamped once, after the loop. |
| NewsUpdate.UpdateWarning | tools/us-news/src/update.js:51 | The warning names the feed, its URL and the error. |
| NewsDigest.Hours | tools/us-news/src/digest.js:24 | `hours` is the argument when it is finite and positive; else the configured default when truthy, else 24. |
| NewsDigest.HoursPositive | tools/us-news/src/digest.js:24 | With no negative configured default, the window has positive length. |
| NewsDigest.Since | tools/us-news/src/digest.js:26 | A positive window starts before now. |
| NewsDigest.NewerFirstIsPreorder | tools/us-news/src/digest.js:38-42 | The comparator `tb - ta` orders by time descending, a total preorder. |
| NewsDigest.Selected | tools/us-news/src/digest.js:28-42 | A permutation of the window- and tag-filtered items, no more than are stored. `SelectedMembers` and `SelectedSorted` give membership and the newest-first order. |
| NewsDigest.SelectedMembers | tools/us-news/src/digest.js:28-42 | An item is selected exactly when it is stored, its `iso or fetchedAt` parses to at least `since`, and, with non-empty tags, it shares one. |
| NewsDigest.SelectedSorted | tools/us-news/src/digest.js:38-42 | The selection is a permutation of the filtered items, sorted newest first. |
| NewsDigest.SortOrderAgrees | tools/us-news/src/digest.js:38-42 | Any other newest-first ordering of the same items has the same time at every position. |
| NewsDigest.Top | tools/us-news/src/digest.js:51 | `slice(0, limit)` is a prefix of the selection; for a non-negative limit its length is `min(trunc(limit), n)`. |
| NewsDigest.MdLines | tools/us-news/src/digest.js:51-53 | One Markdown item per printed item. |
| NewsDigest.PushAll | tools/us-news/src/digest.js:50-53 | The push loop appends the rendering of each element, in order. |
| NewsDigest.Digest | tools/us-news/src/digest.js:20-55 | The text written is the header and hint when the selection is empty, else the header and the first `limit` selected items. |
| NewsDigest.EmptyDigest | tools/us-news/src/digest.js:45-48 | With nothing in the window only the header and the hint are printed. |
| NewsDigest.PrintedItems | tools/us-news/src/digest.js:28-53 | Every printed item is stored, in the window and (with tags) shares one. The printed items are newest first, and at most `limit` are printed. |
| NewsReport.WarningsPerFailedFeed | tools/us-news/src/report.js:63-65 | One warning per failing feed. |
| NewsReport.StaleCheckNeverFires | tools/us-news/src/report.js:68-100 | As written, the staleness check reads the stamp just set to now, so it never fires. |
| NewsReport.StaleLine | tools/us-news/src/report.js:92-100 | The staleness line for a given stamp: present exactly when the stamp is truthy, parses and is more than 30 hours old (`StaleCheckFires`). |
| NewsReport.StaleCheckAsWritten | tools/us-news/src/report.js:68-100 | The check as the script runs it, on the stamp just set to now (`StaleCheckNeverFires`). |
| NewsReport.StaleCheck | tools/us-news/src/report.js:92-100 | The corrected check prints its line only for a truthy previous stamp that parses to a time before now. `StaleCheckFires` gives the if-and-only-if. |
| NewsReport.StaleCheckFires | tools/us-news/src/report.js:92-100 | Checked against the previous run's stamp, the line appears exactly when that stamp is truthy, parses, and is more than 30 hours old. |
| NewsReport.ItemSection | tools/us-news/src/report.js:104-108 | An empty top yields the single placeholder line; else one Markdown item per top item. |
| NewsReport.WarningSectionShape | tools/us-news/src/report.js:110-115 | The warning section appears exactly when there are warnings: a rule, a title and the first eight warnings as bullets. |
| NewsReport.ReportLayout | tools/us-news/src/report.js:85-115 | The report is title, blank, update line, optional staleness line, blank, then the items, then the warnings. |
| NewsReport.Render | tools/us-news/src/report.js:71-117 | The push sequence produces exactly the specified report text. |
| NewsReport.ReportText | tools/us-news/src/report.js:71-117 | The report text: head, items or placeholder, then the warnings (`ReportLayout`, `ItemSection`, `WarningSectionShape`). |
| NewsReport.Report | tools/us-news/src/report.js:20-117 | Without configuration nothing changes. Otherwise the merge runs, `lastRunAt` is stamped, and the text is the report of the window (no tag filter) with the failing feeds' warnings. The staleness line uses the corrected check against the previous stamp, whereas the script as written never prints it (see Findings). |
| Seqs.SortBy | tools/meme-alpha/dex_push.js:279-292 | The stable sort returns a permutation of its input. |
| Seqs.InsertSorted | tools/meme-alpha/dex_push.js:279-292 | Inserting into a sorted list keeps it sorted. |
| Seqs.SortBySorted | tools/meme-alpha/dex_push.js:279-292 | `SortBy` sorts by any total preorder. |
| Seqs.SortByHeadIsLeast | tools/meme-alpha/dex_push.js:92-95 | The head after sorting is an element that comes before every element. |
| Seqs.SortedPermutationsAgree | tools/meme-alpha/dex_push.js:279-292 | Two sorted permutations of one list tie position by position, so a sort is determined up to ties. |
| Seqs.Filter | tools/tools/hk-deals/check_hk_deals.py:157-160 | The order-preserving filter holds exactly the elements that satisfy the predicate. |
| Seqs.SliceTo | tools/tools/hk-deals/check_hk_deals.py:165 | `s[:n]` is a prefix of length `min(n, len)`, or `max(0, len + n)` for negative `n`. |
| Seqs.LastN | apps/market-dashboard-oi/server/storage.js:69 | `slice(-n)` keeps the last `min(n, len)` elements. |
| Seqs.SortThenLastN | apps/market-dashboard-oi/server/storage.js:68-69 | The last `n` elements of a sorted list are sorted, and no dropped element comes after a kept one. |
| JsNumbers.Trunc | tools/us-news/src/digest.js:51 | Truncation toward zero of a finite slice end. |
| JsNumbers.SliceToJs | tools/us-news/src/report.js:83 | `slice(0, end)` is a prefix: all of it for Infinity, none for NaN or -Infinity. |

## Left out

- HTTP and feed fetching are outside the model. This covers `fetchJson` with its timeouts, the Dexscreener feeds and per-token lookups, the RPC transport, and rss-parser. Their results are parameters: a fetch outcome per feed, a lookup per candidate, a reply function `net` per endpoint and attempt.
- File I/O is outside the model: state, history, store, checkpoint, summary and events files. Loading is a parsed value or none; saving is the returned value (`saved`, the `log` field).
- Command-line and environment parsing are out: `getArg`, `parseArgs` in digest.js and report.js, `argparse`, and `RPC_URLS`. The parsed values are parameters.
- Time is out. `Date.now()` is one clock value per run, although the scripts read it more than once. ISO formatting and `Date.parse` are functions carried by `NewsUpdate.Clock`.
- `sleep` is out: the waits are returned as a list.
- The six-worker pool of the scanner runs as one sequential loop. No `await` lies between the cooldown read and the write, so each check-and-record is atomic. The model assumes the awaited pair lookups finish in candidate order. That order decides which of two candidates sharing a `chainId:pairAddress` key alerts, and the order of the alerts before dedup.
- `Array.prototype.sort` and Python's list order are modelled by the stable `Seqs.SortBy`, as a value rather than in place. Every property used holds for any sort by the same comparator (`Seqs.SortedPermutationsAgree`).
- Storage: the in-place `rows[idx] = row`, `push` and `sort` of the history are sequence reassignments in `Storage.UpsertDailySnapshot`.
- Storage: day keys are day numbers. `localeCompare` on `YYYY-MM-DD` strings is taken as numeric day order, which agrees for four-digit years.
- Storage: the parsing of `snapshot.asOf` into milliseconds is out; `asOf` is given as milliseconds. An `asOf` that does not parse makes the date formatting throw a RangeError before anything is saved. That failure is not modelled.
- Floating point is out: numbers are exact reals. This covers rounding error in the score, in `lamportsToSol` and in the summary sums.
- Text rendering of numbers is out: `toFixed`, the template rendering of numbers, and `fmtMoney`. A `show`/`fixed1` parameter stands for it.
- `buildAlert` and the alert `text` field are out; so is `--only-gmgn`.
- The scanner's stdout lines and EPIPE handling are out, as are `console.log`/`console.error` of the whale monitor and the update script's final `ok:` line.
- `sha256` is out: the store key is the joined text `name|link|title` itself, taken as an injective hash of it. `NewsUpdate.IdCollision` shows that the joined text itself is not injective.
- The hk-deals keyword regexes are a predicate parameter `hit` on the haystack, so the default keyword list and `--keywords` are not modelled.
- The `blogwatcher` subprocess calls are outcomes given as parameters. A failed `read` is ignored as the script does. A timed-out `read` or listing ends the script (`HkDeals.CheckDeals`). The traceback it prints is not modelled, and neither is a missing `blogwatcher` executable.
- HkDeals.ParseHeader: the digits of the header are ASCII `0`-`9`. Python's `\d` also matches other Unicode decimal digits, which `int()` accepts, so such headers are not recognised by the model.
- NewsReport.Report: it renders the corrected staleness check, against the stamp from before this run. The script as written compares with the stamp it has just set and never prints the line (see Findings, `NewsReport.StaleCheckAsWritten`).
- DexScan.Scanner.constructor: a state file that parses but has no `sentPairs` object makes every cooldown lookup throw inside the worker's `try`, so every candidate is skipped. The model takes every parsed state to carry the map.
- `str.splitlines()` is out: the listing arrives already split into lines.
- `DexPush.ScorePair`, `DexScan.Qualify`, `DexScan.Evaluate`, `DexScan.Scan` and `DexScan.Scanner.Run` require positive minimum thresholds. A zero or negative `--min-*` value makes the JavaScript divide by zero and compute with Infinity or NaN, which the model does not represent.
- In the summary, events whose `deltaSol` is not a number, and event fields other than those the summary reads, are not modelled.
- `WhaleMonitor.Monitor.Run` does not model the summary's `asOf` time stamp or `ok` flag, which are constants or clock values.
- The RPC `params` and the truthiness of a result (`!Array.isArray(sigs)`, `!tx || !tx.meta`) are folded into the lookup functions' `None`.
- The context apps (Express servers, `sources.js`, `smartmoney.js`) are not part of this model.

## Findings

| source | as written | input that shows it | evidently intended | confidence | as-written member | corrected member |
|---|---|---|---|---|---|---|
| tools/us-news/src/report.js:68-100 | `store.lastRunAt` is set to the current time at line 68, and the staleness check at lines 92-100 then compares `Date.now()` with that same stamp, so `deltaH` is about 0 and the warning never appears | any run whose previous `lastRunAt` is more than 30 hours old, e.g. 48 hours ago: no warning is printed | compare with the `lastRunAt` the store had before this run stamps its own | not executed | NewsReport.StaleCheckNeverFires | NewsReport.StaleCheckFires |
