/**
 * The digest of the US news tool (tools/us-news/src/digest.js): the stored
 * items of the last `hours` hours, optionally only those sharing a tag,
 * newest first, at most `limit` of them, rendered as Markdown.  The window,
 * the sort and the slice are shared with the report (report.js).
 */
module NewsDigest {
  import opened Wrappers
  import opened JsNumbers
  import Seqs
  import NewsLib
  import NewsUpdate

  type Item = NewsUpdate.Item

  /**
   * `Number.isFinite(lookbackHours) && lookbackHours > 0 ? lookbackHours :
   * (cfg?.defaultLookbackHours || 24)`; a configured default of 0 is falsy.
   */
  function Hours(lookback: Option<JsNumber>, cfgDefault: Option<real>): (h: real)
    ensures lookback.Some? && lookback.value.Num? && lookback.value.r > 0.0 ==> h == lookback.value.r
    ensures !(lookback.Some? && lookback.value.Num? && lookback.value.r > 0.0) ==>
      h == (if cfgDefault.Some? && cfgDefault.value != 0.0 then cfgDefault.value else 24.0)
  {
    if lookback.Some? && IsFinite(lookback.value) && lookback.value.r > 0.0 then lookback.value.r
    else if cfgDefault.Some? && cfgDefault.value != 0.0 then cfgDefault.value
    else 24.0
  }

  /** Unless the configuration asks for a non-positive default, the window reaches into the past. */
  lemma HoursPositive(lookback: Option<JsNumber>, cfgDefault: Option<real>)
    requires cfgDefault.None? || cfgDefault.value >= 0.0
    ensures Hours(lookback, cfgDefault) > 0.0
  {
  }

  /** `Date.now() - hours * 3600 * 1000`. */
  function Since(nowMs: int, hours: real): (since: real)
    ensures hours > 0.0 ==> since < nowMs as real
  {
    nowMs as real - hours * 3600.0 * 1000.0
  }

  /** The text whose date an item is filed under: `it.iso || it.fetchedAt`. */
  function StampOf(it: Item): string {
    if Truthy(it.iso) then it.iso.value else it.fetchedAt
  }

  /** `Number.isFinite(t) && t >= since` for `t` the parsed stamp. */
  predicate InWindow(it: Item, since: real, parse: string -> Option<int>) {
    parse(StampOf(it)).Some? && parse(StampOf(it)).value as real >= since
  }

  /** The window filter. */
  function Window(items: seq<Item>, since: real, parse: string -> Option<int>): seq<Item> {
    Seqs.Filter(items, it => InWindow(it, since, parse))
  }

  /** `(it.tags || []).some(t => tags.includes(t))`. */
  predicate SharesTag(it: Item, tags: seq<string>) {
    exists t | t in it.tags :: t in tags
  }

  /** The tag filter, applied only when tags were given and there is at least one. */
  function TagFilter(items: seq<Item>, tags: Option<seq<string>>): seq<Item> {
    if tags.Some? && |tags.value| > 0 then Seqs.Filter(items, it => SharesTag(it, tags.value)) else items
  }

  /** The parsed time of an item in milliseconds (0 stands in for an unparsable stamp, which the window has removed). */
  function TimeOf(it: Item, parse: string -> Option<int>): int {
    match parse(StampOf(it))
    case Some(t) => t
    case None => 0
  }

  /** The comparator `tb - ta`: `a` may come first when it is not older than `b`. */
  function NewerFirst(parse: string -> Option<int>): (Item, Item) -> bool {
    (a: Item, b: Item) => TimeOf(a, parse) >= TimeOf(b, parse)
  }

  lemma NewerFirstIsPreorder(parse: string -> Option<int>)
    ensures Seqs.TotalPreorder(NewerFirst(parse))
  {
  }

  /** The window, the tag filter and the (stable) sort, newest first. */
  function Selected(items: seq<Item>, since: real, tags: Option<seq<string>>, parse: string -> Option<int>): (r: seq<Item>)
    ensures |r| <= |items|
    ensures multiset(r) == multiset(TagFilter(Window(items, since, parse), tags))
  {
    Seqs.SortBy(TagFilter(Window(items, since, parse), tags), NewerFirst(parse))
  }

  /** An item is selected exactly when it is stored, inside the window and, when tags are asked for, shares one. */
  lemma SelectedMembers(items: seq<Item>, since: real, tags: Option<seq<string>>, parse: string -> Option<int>, it: Item)
    ensures it in Selected(items, since, tags, parse) <==>
      && it in items
      && InWindow(it, since, parse)
      && (tags.Some? && |tags.value| > 0 ==> SharesTag(it, tags.value))
  {
    var filtered := TagFilter(Window(items, since, parse), tags);
    var sorted := Selected(items, since, tags, parse);
    assert it in sorted <==> it in multiset(sorted);
    assert it in filtered <==> it in multiset(filtered);
  }

  /** The selection is a permutation of the filtered items, newest first. */
  lemma SelectedSorted(items: seq<Item>, since: real, tags: Option<seq<string>>, parse: string -> Option<int>)
    ensures multiset(Selected(items, since, tags, parse)) == multiset(TagFilter(Window(items, since, parse), tags))
    ensures forall i, j :: 0 <= i < j < |Selected(items, since, tags, parse)| ==>
      TimeOf(Selected(items, since, tags, parse)[i], parse) >= TimeOf(Selected(items, since, tags, parse)[j], parse)
  {
    NewerFirstIsPreorder(parse);
    Seqs.SortBySorted(TagFilter(Window(items, since, parse), tags), NewerFirst(parse));
  }

  /**
   * Any other newest-first ordering of the same items has the same times at
   * every position, so the choice of stable sort does not show in the times.
   */
  lemma SortOrderAgrees(items: seq<Item>, since: real, tags: Option<seq<string>>, parse: string -> Option<int>, other: seq<Item>)
    requires multiset(other) == multiset(TagFilter(Window(items, since, parse), tags))
    requires forall i, j :: 0 <= i < j < |other| ==> TimeOf(other[i], parse) >= TimeOf(other[j], parse)
    ensures |other| == |Selected(items, since, tags, parse)|
    ensures forall i :: 0 <= i < |other| ==> TimeOf(other[i], parse) == TimeOf(Selected(items, since, tags, parse)[i], parse)
  {
    var s := Selected(items, since, tags, parse);
    SelectedSorted(items, since, tags, parse);
    NewerFirstIsPreorder(parse);
    assert Seqs.SortedBy(other, NewerFirst(parse));
    assert Seqs.SortedBy(s, NewerFirst(parse));
    Seqs.SortedPermutationsAgree(other, s, NewerFirst(parse));
  }

  /** `items.slice(0, limit)`: the first `limit` of the selection. */
  function Top(selected: seq<Item>, limit: JsNumber): (top: seq<Item>)
    ensures |top| <= |selected| && top == selected[..|top|]
    ensures limit.Num? && limit.r >= 0.0 ==> |top| == Seqs.Min(Trunc(limit.r), |selected|)
  {
    SliceToJs(selected, limit)
  }

  /** `toMdItem(it)` for a stored item. */
  function MdOf(it: Item): string {
    NewsLib.ToMdItem(it.feedName, it.title, it.link, it.iso, it.tags)
  }

  /** The lines pushed for the printed items. */
  function MdLines(top: seq<Item>): (r: seq<string>)
    ensures |r| == |top|
    ensures forall i :: 0 <= i < |top| ==> r[i] == MdOf(top[i])
  {
    Seqs.Map(MdOf, top)
  }

  /** `lines.join('\n')`. */
  function JoinLines(lines: seq<string>): string {
    NewsLib.Join(lines, "\n")
  }

  function Header(hours: real, show: JsNumber -> string): string {
    "# 美国宏观 & 美股要闻（最近 " + show(Num(hours)) + "h · UTC）\n\n"
  }

  const Hint: string := "（该时间窗内暂无抓取到的条目；你可以先运行：npm run update）\n"

  /** What digest.js writes to standard output. */
  function DigestText(selected: seq<Item>, limit: JsNumber, header: string): string {
    if selected == [] then header + Hint
    else JoinLines([header] + MdLines(Top(selected, limit))) + "\n"
  }

  /** `for (const x of xs) lines.push(render(x))`. */
  method PushAll<T>(lines0: seq<string>, xs: seq<T>, render: T -> string) returns (lines: seq<string>)
    ensures lines == lines0 + Seqs.Map(render, xs)
  {
    lines := lines0;
    for i := 0 to |xs|
      invariant lines == lines0 + Seqs.Map(render, xs[..i])
    {
      assert Seqs.Map(render, xs[..i + 1]) == Seqs.Map(render, xs[..i]) + [render(xs[i])];
      lines := lines + [render(xs[i])];
    }
    assert xs[..|xs|] == xs;
  }

  /**
   * digest.js after its arguments are read: `items` are the stored values in
   * their order, `show` renders a number as JavaScript prints it.
   */
  method Digest(items: seq<Item>, cfgDefault: Option<real>, lookback: Option<JsNumber>, limit: JsNumber,
                tags: Option<seq<string>>, nowMs: int, parse: string -> Option<int>, show: JsNumber -> string)
    returns (out: string)
    ensures var hours := Hours(lookback, cfgDefault);
      out == DigestText(Selected(items, Since(nowMs, hours), tags, parse), limit, Header(hours, show))
  {
    var hours := Hours(lookback, cfgDefault);
    var since := Since(nowMs, hours);
    var selected := Selected(items, since, tags, parse);
    var header := Header(hours, show);
    if |selected| == 0 {
      return header + Hint;
    }
    var lines := PushAll([header], Top(selected, limit), MdOf);
    out := JoinLines(lines) + "\n";
  }

  /** With nothing in the window, only the header and the hint are printed. */
  lemma EmptyDigest(items: seq<Item>, since: real, tags: Option<seq<string>>, parse: string -> Option<int>,
                    limit: JsNumber, header: string)
    requires forall it :: it in items ==> !InWindow(it, since, parse)
    ensures DigestText(Selected(items, since, tags, parse), limit, header) == header + Hint
  {
    var s := Selected(items, since, tags, parse);
    if s != [] {
      SelectedMembers(items, since, tags, parse, s[0]);
    }
  }

  /**
   * Every printed item is in the window and shares a requested tag, the
   * printed items are newest first, and no more than `limit` are printed.
   */
  lemma PrintedItems(items: seq<Item>, since: real, tags: Option<seq<string>>, parse: string -> Option<int>, limit: JsNumber)
    ensures var top := Top(Selected(items, since, tags, parse), limit);
      && (forall it :: it in top ==> it in items && InWindow(it, since, parse))
      && (forall it :: it in top && tags.Some? && |tags.value| > 0 ==> SharesTag(it, tags.value))
      && (forall i, j :: 0 <= i < j < |top| ==> TimeOf(top[i], parse) >= TimeOf(top[j], parse))
      && (limit.Num? && limit.r >= 0.0 ==> |top| <= Trunc(limit.r))
  {
    var s := Selected(items, since, tags, parse);
    var top := Top(s, limit);
    SelectedSorted(items, since, tags, parse);
    forall it | it in top
      ensures it in items && InWindow(it, since, parse)
      ensures tags.Some? && |tags.value| > 0 ==> SharesTag(it, tags.value)
    {
      SelectedMembers(items, since, tags, parse, it);
    }
  }
}
