/**
 * The report of the US news tool (tools/us-news/src/report.js): the merge
 * of update.js with the failures kept as warnings, then the digest window
 * without a tag filter, and a Markdown report with a header, an update
 * line, an optional staleness warning, the top items and the warnings.
 */
module NewsReport {
  import opened Wrappers
  import opened JsNumbers
  import Seqs
  import NewsUpdate
  import NewsDigest

  type Item = NewsUpdate.Item
  type Feed = NewsUpdate.Feed
  type Clock = NewsUpdate.Clock

  /** `[warn] ${f.name} -> ${e?.message || e}` for a failed feed. */
  function Warning(failure: (Feed, string)): string {
    "[warn] " + failure.0.name + " -> " + failure.1
  }

  /** The warnings of a run: one per failed feed, in order. */
  lemma WarningsPerFailedFeed(feeds: seq<Feed>, fetch: nat -> NewsUpdate.Fetch)
    ensures var w := Seqs.Map(Warning, NewsUpdate.FailedFeeds(feeds, fetch));
      |w| == |NewsUpdate.FailedBelow(|feeds|, fetch)|
  {
    NewsUpdate.FailedFeedsExact(feeds, fetch);
  }

  // ---------------------------------------------------------- staleness

  /** Thirty hours, the gap after which a run counts as having missed scheduled pushes. */
  const StaleHours: real := 30.0

  /**
   * The staleness line for a run stamped `last`: when `last` is truthy and
   * parses, and `(now - last) / 3600e3 > 30`, a warning giving the gap in
   * hours to one decimal (`fixed1` stands for `toFixed(1)`).
   */
  function StaleLine(last: Option<string>, c: Clock, fixed1: real -> string): Option<string> {
    if !Truthy(last) then None
    else match c.parse(last.value)
      case None => None
      case Some(t) =>
        var deltaH := (c.nowMs - t) as real / 3600000.0;
        if deltaH > StaleHours then
          Some("⚠️ 检测到上次成功运行距今约 " + fixed1(deltaH) + " 小时：期间可能因服务/页面不在线而错过定时推送。")
        else None
  }

  /** The check as written: it reads `lastRunAt` right after stamping it with the current time. */
  function StaleCheckAsWritten(c: Clock, fixed1: real -> string): Option<string> {
    StaleLine(Some(c.nowIso), c, fixed1)
  }

  /** As written, the check never fires: the stamp it reads is the current time. */
  lemma StaleCheckNeverFires(c: Clock, fixed1: real -> string)
    requires c.parse(c.nowIso) == Some(c.nowMs)
    ensures StaleCheckAsWritten(c, fixed1) == None
  {
  }

  /** The check as intended: against the stamp of the previous run, read before this run stamps its own. */
  function StaleCheck(prev: Option<string>, c: Clock, fixed1: real -> string): (r: Option<string>)
    ensures r.Some? ==> Truthy(prev) && c.parse(prev.value).Some? && c.parse(prev.value).value < c.nowMs
  {
    StaleLine(prev, c, fixed1)
  }

  /** The intended check fires exactly when the previous run parses to more than 30 hours ago. */
  lemma StaleCheckFires(prev: Option<string>, c: Clock, fixed1: real -> string)
    ensures StaleCheck(prev, c, fixed1).Some? <==>
      Truthy(prev) && c.parse(prev.value).Some? && c.nowMs - c.parse(prev.value).value > 30 * 3600000
  {
    if Truthy(prev) && c.parse(prev.value).Some? {
      var gap := (c.nowMs - c.parse(prev.value).value) as real;
      assert gap / 3600000.0 > StaleHours <==> gap > 108000000.0;
    }
  }

  // ---------------------------------------------------------- the report's lines

  /** `# 市场要闻 Top ${limit}（最近 ${hours}h · UTC）`; `show` prints a number as JavaScript does. */
  function TitleLine(limit: JsNumber, hours: real, show: JsNumber -> string): string {
    "# 市场要闻 Top " + show(limit) + "（最近 " + show(Num(hours)) + "h · UTC）"
  }

  /** `更新：${store.lastRunAt} · 新增条目：${newCount}`. */
  function UpdatedLine(lastRunAt: string, newCount: nat, show: JsNumber -> string): string {
    "更新：" + lastRunAt + " · 新增条目：" + show(Num(newCount as real))
  }

  const Placeholder: string := "（该时间窗内暂无抓取到的条目）"

  /** The item lines: the placeholder alone when nothing made the top. */
  function ItemSection(top: seq<Item>): (r: seq<string>)
    ensures top == [] ==> r == [Placeholder]
    ensures top != [] ==> |r| == |top| && forall i :: 0 <= i < |top| ==> r[i] == NewsDigest.MdOf(top[i])
  {
    if top == [] then [Placeholder] else NewsDigest.MdLines(top)
  }

  /** `- ${w}`. */
  function Bullet(w: string): string {
    "- " + w
  }

  const WarningTitle: string := "抓取告警（部分站点可能反爬/限流）："

  /** The most warnings listed. */
  const MaxWarnings: nat := 8

  /** The warning section: a rule, a title and the first eight warnings, only when there are warnings. */
  function WarningSection(warnings: seq<string>): seq<string> {
    if warnings == [] then [] else ["", "---", WarningTitle] + Seqs.Map(Bullet, Seqs.SliceTo(warnings, MaxWarnings))
  }

  lemma WarningSectionShape(warnings: seq<string>)
    ensures warnings == [] <==> WarningSection(warnings) == []
    ensures warnings != [] ==> |WarningSection(warnings)| == 3 + Seqs.Min(|warnings|, MaxWarnings)
    ensures forall i :: 0 <= i < Seqs.Min(|warnings|, MaxWarnings) ==> WarningSection(warnings)[3 + i] == "- " + warnings[i]
  {
  }

  /** All the lines of the report, in order. */
  function ReportLines(title: string, updated: string, stale: Option<string>, top: seq<Item>, warnings: seq<string>): seq<string> {
    Head(title, updated, stale) + ItemSection(top) + WarningSection(warnings)
  }

  /** The fixed head of the report: title, blank, update line, the staleness line if any, blank. */
  function Head(title: string, updated: string, stale: Option<string>): seq<string> {
    [title, "", updated] + (if stale.Some? then [stale.value] else []) + [""]
  }

  /** The report is its head, then the item section, then the warning section. */
  lemma ReportLayout(title: string, updated: string, stale: Option<string>, top: seq<Item>, warnings: seq<string>)
    ensures var lines := ReportLines(title, updated, stale, top, warnings);
      var head := Head(title, updated, stale);
      && |head| == (if stale.Some? then 5 else 4)
      && lines[..|head|] == head
      && lines[|head|..] == ItemSection(top) + WarningSection(warnings)
  {
    Seqs.ConcatAssoc(Head(title, updated, stale), ItemSection(top), WarningSection(warnings));
  }

  // ---------------------------------------------------------- the run

  /** The text printed, for the store after the merge and the warnings of the run. */
  function ReportText(st: NewsUpdate.Snapshot, prev: Option<string>, newCount: nat, warnings: seq<string>,
                      cfgDefault: Option<real>, lookback: JsNumber, limit: JsNumber, c: Clock,
                      show: JsNumber -> string, fixed1: real -> string): string
    requires NewsUpdate.Wf(st)
  {
    var hours := NewsDigest.Hours(Some(lookback), cfgDefault);
    var top := NewsDigest.Top(NewsDigest.Selected(NewsUpdate.Values(st), NewsDigest.Since(c.nowMs, hours), None, c.parse), limit);
    NewsDigest.JoinLines(ReportLines(
      TitleLine(limit, hours, show), UpdatedLine(c.nowIso, newCount, show),
      StaleCheck(prev, c, fixed1), top, warnings)) + "\n"
  }

  /** The digest step of report.js: the head lines, then one `push` per item and per listed warning. */
  method Render(st: NewsUpdate.Snapshot, prev: Option<string>, newCount: nat, warnings: seq<string>,
                cfgDefault: Option<real>, lookback: JsNumber, limit: JsNumber, c: Clock,
                show: JsNumber -> string, fixed1: real -> string)
    returns (out: string)
    requires NewsUpdate.Wf(st)
    ensures out == ReportText(st, prev, newCount, warnings, cfgDefault, lookback, limit, c, show, fixed1)
  {
    var hours := NewsDigest.Hours(Some(lookback), cfgDefault);
    var since := NewsDigest.Since(c.nowMs, hours);
    var top := NewsDigest.Top(NewsDigest.Selected(NewsUpdate.Values(st), since, None, c.parse), limit);
    var stale := StaleCheck(prev, c, fixed1);
    var head := Head(TitleLine(limit, hours, show), UpdatedLine(c.nowIso, newCount, show), stale);

    var lines := head;
    if top == [] {
      lines := lines + [Placeholder];
    } else {
      lines := NewsDigest.PushAll(lines, top, NewsDigest.MdOf);
    }
    assert lines == head + ItemSection(top);
    var body := lines;
    if warnings != [] {
      lines := lines + ["", "---", WarningTitle];
      lines := NewsDigest.PushAll(lines, Seqs.SliceTo(warnings, MaxWarnings), Bullet);
      Seqs.ConcatAssoc(body, ["", "---", WarningTitle], Seqs.Map(Bullet, Seqs.SliceTo(warnings, MaxWarnings)));
    } else {
      Seqs.ConcatEmpty(body);
    }
    assert lines == body + WarningSection(warnings);
    assert lines == ReportLines(TitleLine(limit, hours, show), UpdatedLine(c.nowIso, newCount, show), stale, top, warnings);
    out := NewsDigest.JoinLines(lines) + "\n";
  }

  /**
   * report.js after its arguments are read.  Without a configuration it
   * stops with an error and leaves the store alone.  Otherwise it merges
   * the feeds, stamps `lastRunAt`, and returns the report text; the
   * staleness check compares with the stamp the store had before this run.
   */
  method Report(store: NewsUpdate.Store, cfg: Option<NewsUpdate.Config>, fetch: nat -> NewsUpdate.Fetch,
                lookback: JsNumber, limit: JsNumber, c: Clock, show: JsNumber -> string, fixed1: real -> string)
    returns (r: Result<string, string>, newCount: nat)
    requires store.Valid()
    modifies store
    ensures store.Valid()
    ensures cfg.None? ==> r == Err("missing feeds.json") && store.Snap() == old(store.Snap()) && store.lastRunAt == old(store.lastRunAt)
    ensures cfg.Some? ==> store.Snap() == NewsUpdate.AddFeeds(old(store.Snap()), cfg.value.feeds, fetch, c)
    ensures cfg.Some? ==> store.lastRunAt == Some(c.nowIso)
    ensures newCount == |store.items| - |old(store.items)|
    ensures cfg.Some? ==> r == Ok(ReportText(store.Snap(), old(store.lastRunAt), newCount,
      Seqs.Map(Warning, NewsUpdate.FailedFeeds(cfg.value.feeds, fetch)),
      cfg.value.defaultLookbackHours, lookback, limit, c, show, fixed1))
  {
    if cfg.None? {
      return Err("missing feeds.json"), 0;
    }
    var prev := store.lastRunAt;
    var failures;
    newCount, failures := store.Merge(cfg.value.feeds, fetch, c);
    var st := store.Snap();
    store.lastRunAt := Some(c.nowIso);
    var out := Render(st, prev, newCount, Seqs.Map(Warning, failures),
      cfg.value.defaultLookbackHours, lookback, limit, c, show, fixed1);
    r := Ok(out);
  }
}
