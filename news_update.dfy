/**
 * The fetch-and-dedupe step of the US news tool (tools/us-news/src/update.js,
 * repeated as the first half of report.js): every item of every configured
 * RSS feed is keyed by its (feed name, link, title) triple and inserted into
 * the store only when that key is new; `newCount` counts the insertions and
 * `lastRunAt` is stamped once at the end.
 */
module NewsUpdate {
  import opened Wrappers
  import NewsLib

  /** An entry of an RSS feed as the parser hands it over; every field may be missing. */
  datatype RawItem = RawItem(
    title: Option<string>, link: Option<string>, guid: Option<string>,
    isoDate: Option<string>, pubDate: Option<string>, published: Option<string>)

  /** A feed of `feeds.json`. */
  datatype Feed = Feed(name: string, url: string, tags: Option<seq<string>>)

  /** `feeds.json`: the feeds and the optional default lookback. */
  datatype Config = Config(feeds: seq<Feed>, defaultLookbackHours: Option<real>)

  /** What fetching a feed gave: its items (possibly absent), or the error it threw. */
  datatype Fetch = Fetched(items: Option<seq<RawItem>>) | Failed(message: string)

  /** A stored news item. */
  datatype Item = Item(
    id: string, feedName: string, title: string, link: string,
    iso: Option<string>, tags: seq<string>, fetchedAt: string)

  /**
   * The runtime's date handling: the current instant in milliseconds and as
   * an ISO string, the date parser (`None` for an invalid date) and the ISO
   * formatter.
   */
  datatype Clock = Clock(nowMs: int, nowIso: string, parse: string -> Option<int>, toIso: int -> string)

  /** `a || b` on optional strings: `a` when truthy, else `b`. */
  function Or(a: Option<string>, b: Option<string>): (r: Option<string>)
    ensures Truthy(a) ==> r == a
    ensures !Truthy(a) ==> r == b
  {
    if Truthy(a) then a else b
  }

  /** `it.title || ''`. */
  function TitleOf(it: RawItem): (r: string)
    ensures Truthy(it.title) ==> r == it.title.value
    ensures !Truthy(it.title) ==> r == ""
  {
    OrEmpty(Or(it.title, None))
  }

  /** `it.link || it.guid || ''`. */
  function LinkOf(it: RawItem): (r: string)
    ensures Truthy(it.link) ==> r == it.link.value
    ensures !Truthy(it.link) && Truthy(it.guid) ==> r == it.guid.value
    ensures !Truthy(it.link) && !Truthy(it.guid) ==> r == ""
  {
    OrEmpty(Or(Or(it.link, it.guid), None))
  }

  /** The publication date as ISO text, from the first truthy of `isoDate`, `pubDate`, `published`. */
  function IsoOf(it: RawItem, c: Clock): (r: Option<string>)
    ensures r.Some? <==> NewsLib.ParseDateMaybe(Or(Or(it.isoDate, it.pubDate), it.published), c.parse).Some?
  {
    match NewsLib.ParseDateMaybe(Or(Or(it.isoDate, it.pubDate), it.published), c.parse)
    case None => None
    case Some(t) => Some(c.toIso(t))
  }

  /**
   * The key of an item: the SHA-256 digest of `name|link|title`.  The digest
   * is taken to be injective, so the model keys by the joined text itself.
   */
  function IdOf(name: string, link: string, title: string): (r: string)
    ensures |r| == |name| + |link| + |title| + 2
  {
    name + "|" + link + "|" + title
  }

  /** The key reads the name, a bar, the link, a bar, then the title. */
  lemma IdLayout(name: string, link: string, title: string)
    ensures var r := IdOf(name, link, title);
      && r[..|name|] == name && r[|name|] == '|'
      && r[|name| + 1..|name| + 1 + |link|] == link && r[|name| + 1 + |link|] == '|'
      && r[|r| - |title|..] == title
  {
  }

  function KeyOf(f: Feed, it: RawItem): string {
    IdOf(f.name, LinkOf(it), TitleOf(it))
  }

  /** `f.tags || []`. */
  function TagsOf(f: Feed): seq<string> {
    if f.tags.Some? then f.tags.value else []
  }

  /** The record stored for a new item. */
  function ItemOf(f: Feed, it: RawItem, c: Clock): (r: Item)
    ensures r.id == KeyOf(f, it) && r.feedName == f.name
    ensures r.title == TitleOf(it) && r.link == LinkOf(it) && r.iso == IsoOf(it, c)
    ensures r.tags == TagsOf(f) && r.fetchedAt == c.nowIso
  {
    Item(KeyOf(f, it), f.name, TitleOf(it), LinkOf(it), IsoOf(it, c), TagsOf(f), c.nowIso)
  }

  /** `feed.items || []`, or nothing for a feed whose fetch threw. */
  function ItemsOf(fe: Fetch): seq<RawItem> {
    if fe.Fetched? && fe.items.Some? then fe.items.value else []
  }

  // ---------------------------------------------------------- the store as a value

  /**
   * `store.items` as a value: the map from key to record, and the keys in
   * insertion order (the order in which the object's values are listed).
   */
  datatype Snapshot = Snapshot(items: map<string, Item>, order: seq<string>)

  predicate Distinct(s: seq<string>) {
    forall i, j :: 0 <= i < j < |s| ==> s[i] != s[j]
  }

  /** The order lists every key once. */
  ghost predicate Wf(st: Snapshot) {
    && Distinct(st.order)
    && (forall id :: id in st.items <==> id in st.order)
    && |st.order| == |st.items|
  }

  /** `Object.values(store.items)`: the records in insertion order. */
  function Values(st: Snapshot): (r: seq<Item>)
    requires Wf(st)
    ensures |r| == |st.order|
    ensures forall i :: 0 <= i < |r| ==> r[i] == st.items[st.order[i]]
  {
    seq(|st.order|, i requires 0 <= i < |st.order| => st.items[st.order[i]])
  }

  /** One item: inserted under its key unless the key is already there. */
  function AddItem(st: Snapshot, f: Feed, it: RawItem, c: Clock): (r: Snapshot)
    ensures KeyOf(f, it) in st.items ==> r == st
    ensures KeyOf(f, it) !in st.items ==>
      r == Snapshot(st.items[KeyOf(f, it) := ItemOf(f, it, c)], st.order + [KeyOf(f, it)])
  {
    var id := KeyOf(f, it);
    if id in st.items then st else Snapshot(st.items[id := ItemOf(f, it, c)], st.order + [id])
  }

  /** The items of one feed, in order. */
  function AddAll(st: Snapshot, f: Feed, its: seq<RawItem>, c: Clock): Snapshot
    decreases |its|
  {
    if its == [] then st else AddItem(AddAll(st, f, its[..|its| - 1], c), f, its[|its| - 1], c)
  }

  lemma AddAllStep(st: Snapshot, f: Feed, its: seq<RawItem>, c: Clock, i: nat)
    requires i < |its|
    ensures AddAll(st, f, its[..i + 1], c) == AddItem(AddAll(st, f, its[..i], c), f, its[i], c)
  {
    assert its[..i + 1][..i] == its[..i];
  }

  /** One feed: its items, or no change when its fetch failed. */
  function AddFeed(st: Snapshot, f: Feed, fe: Fetch, c: Clock): (r: Snapshot)
    ensures fe.Failed? ==> r == st
  {
    AddAll(st, f, ItemsOf(fe), c)
  }

  /** All feeds, each with what fetching it gave (`fetch(i)` for the `i`-th feed). */
  function AddFeeds(st: Snapshot, feeds: seq<Feed>, fetch: nat -> Fetch, c: Clock): Snapshot
    decreases |feeds|
  {
    if feeds == [] then st
    else AddFeed(AddFeeds(st, feeds[..|feeds| - 1], fetch, c), feeds[|feeds| - 1], fetch(|feeds| - 1), c)
  }

  lemma AddFeedsStep(st: Snapshot, feeds: seq<Feed>, fetch: nat -> Fetch, c: Clock, i: nat)
    requires i < |feeds|
    ensures AddFeeds(st, feeds[..i + 1], fetch, c) == AddFeed(AddFeeds(st, feeds[..i], fetch, c), feeds[i], fetch(i), c)
    ensures FailedFeeds(feeds[..i + 1], fetch) ==
      FailedFeeds(feeds[..i], fetch) + (if fetch(i).Failed? then [(feeds[i], fetch(i).message)] else [])
  {
    assert feeds[..i + 1][..i] == feeds[..i];
  }

  /** The feeds that failed, with their error messages, in order. */
  function FailedFeeds(feeds: seq<Feed>, fetch: nat -> Fetch): (r: seq<(Feed, string)>)
    ensures |r| <= |feeds|
    decreases |feeds|
  {
    if feeds == [] then []
    else
      var init := FailedFeeds(feeds[..|feeds| - 1], fetch);
      var fe := fetch(|feeds| - 1);
      if fe.Failed? then init + [(feeds[|feeds| - 1], fe.message)] else init
  }

  // ---------------------------------------------------------- properties of the merge

  /** Adding an item keeps the store well formed, never changes an existing record and only appends to the order. */
  lemma AddItemFacts(st: Snapshot, f: Feed, it: RawItem, c: Clock)
    requires Wf(st)
    ensures var r := AddItem(st, f, it, c);
      && Wf(r)
      && (forall id :: id in st.items ==> id in r.items && r.items[id] == st.items[id])
      && st.order <= r.order
      && (forall id :: id in r.items <==> id in st.items || id == KeyOf(f, it))
  {
    var r := AddItem(st, f, it, c);
    if KeyOf(f, it) !in st.items {
      assert forall i :: 0 <= i < |st.order| ==> r.order[i] == st.order[i];
    }
  }

  /** Records that are already stored are never overwritten, and the order only grows. */
  ghost predicate Extends(st: Snapshot, r: Snapshot) {
    && (forall id :: id in st.items ==> id in r.items && r.items[id] == st.items[id])
    && st.order <= r.order
  }

  lemma ExtendsTrans(a: Snapshot, b: Snapshot, d: Snapshot)
    requires Extends(a, b) && Extends(b, d)
    ensures Extends(a, d)
  {
  }

  /** Merging a feed keeps the store well formed and extends it. */
  lemma {:induction false} AddAllKeeps(st: Snapshot, f: Feed, its: seq<RawItem>, c: Clock)
    requires Wf(st)
    ensures Wf(AddAll(st, f, its, c)) && Extends(st, AddAll(st, f, its, c))
    decreases |its|
  {
    if its != [] {
      var mid := AddAll(st, f, its[..|its| - 1], c);
      AddAllKeeps(st, f, its[..|its| - 1], c);
      AddItemFacts(mid, f, its[|its| - 1], c);
      ExtendsTrans(st, mid, AddAll(st, f, its, c));
    }
  }

  /** The keys of a feed's items. */
  function FeedKeys(f: Feed, its: seq<RawItem>): (r: set<string>)
    ensures forall j :: 0 <= j < |its| ==> KeyOf(f, its[j]) in r
    decreases |its|
  {
    if its == [] then {} else FeedKeys(f, its[..|its| - 1]) + {KeyOf(f, its[|its| - 1])}
  }

  /** A key none of the feed's items has is not among the feed's keys. */
  lemma {:induction false} NotAFeedKey(f: Feed, its: seq<RawItem>, id: string)
    requires forall j :: 0 <= j < |its| ==> KeyOf(f, its[j]) != id
    ensures id !in FeedKeys(f, its)
    decreases |its|
  {
    if its != [] {
      NotAFeedKey(f, its[..|its| - 1], id);
    }
  }

  /** After merging a feed, the keys are the old ones and those of the feed's items. */
  lemma {:induction false} AddAllKeys(st: Snapshot, f: Feed, its: seq<RawItem>, c: Clock)
    ensures AddAll(st, f, its, c).items.Keys == st.items.Keys + FeedKeys(f, its)
    decreases |its|
  {
    if its != [] {
      AddAllKeys(st, f, its[..|its| - 1], c);
    }
  }

  /**
   * A new key holds the record built from the FIRST item of the feed with
   * that key; later items with the same key are skipped.
   */
  lemma {:induction false} AddAllFirstWins(st: Snapshot, f: Feed, its: seq<RawItem>, c: Clock, k: nat)
    requires k < |its| && KeyOf(f, its[k]) !in st.items
    requires forall j :: 0 <= j < k ==> KeyOf(f, its[j]) != KeyOf(f, its[k])
    ensures KeyOf(f, its[k]) in AddAll(st, f, its, c).items
    ensures AddAll(st, f, its, c).items[KeyOf(f, its[k])] == ItemOf(f, its[k], c)
    decreases |its|
  {
    var init := its[..|its| - 1];
    if k < |init| {
      assert init[k] == its[k];
      assert forall j :: 0 <= j < k ==> init[j] == its[j];
      AddAllFirstWins(st, f, init, c, k);
    } else {
      var id := KeyOf(f, its[k]);
      AddAllKeys(st, f, init, c);
      NotAFeedKey(f, init, id);
      assert id !in AddAll(st, f, init, c).items;
    }
  }

  /** Items with the same feed, link and title share one key, stored once. */
  lemma IdenticalItemsOnce(st: Snapshot, f: Feed, its: seq<RawItem>, c: Clock, j: nat, k: nat)
    requires Wf(st) && j < |its| && k < |its|
    requires LinkOf(its[j]) == LinkOf(its[k]) && TitleOf(its[j]) == TitleOf(its[k])
    ensures KeyOf(f, its[j]) == KeyOf(f, its[k])
    ensures var r := AddAll(st, f, its, c);
      KeyOf(f, its[j]) in r.items && Distinct(r.order)
  {
    AddAllKeeps(st, f, its, c);
    AddAllKeys(st, f, its, c);
  }

  /** The key joins the three fields with `|`, so two different triples can share it. */
  lemma IdCollision()
    ensures IdOf("a|b", "c", "d") == IdOf("a", "b|c", "d")
  {
    assert IdOf("a|b", "c", "d") == "a|b|c|d";
    assert IdOf("a", "b|c", "d") == "a|b|c|d";
  }

  /** Merging all feeds keeps the store well formed and extends it. */
  lemma {:induction false} AddFeedsKeeps(st: Snapshot, feeds: seq<Feed>, fetch: nat -> Fetch, c: Clock)
    requires Wf(st)
    ensures Wf(AddFeeds(st, feeds, fetch, c)) && Extends(st, AddFeeds(st, feeds, fetch, c))
    decreases |feeds|
  {
    if feeds != [] {
      var mid := AddFeeds(st, feeds[..|feeds| - 1], fetch, c);
      AddFeedsKeeps(st, feeds[..|feeds| - 1], fetch, c);
      AddAllKeeps(mid, feeds[|feeds| - 1], ItemsOf(fetch(|feeds| - 1)), c);
      ExtendsTrans(st, mid, AddFeeds(st, feeds, fetch, c));
    }
  }

  /** A failed feed adds nothing, and the others are still merged after it. */
  lemma FailedFeedSkipped(st: Snapshot, feeds: seq<Feed>, fetch: nat -> Fetch, c: Clock)
    requires feeds != [] && fetch(|feeds| - 1).Failed?
    ensures AddFeeds(st, feeds, fetch, c) == AddFeeds(st, feeds[..|feeds| - 1], fetch, c)
    ensures FailedFeeds(feeds, fetch) ==
      FailedFeeds(feeds[..|feeds| - 1], fetch) + [(feeds[|feeds| - 1], fetch(|feeds| - 1).message)]
  {
  }

  /** The positions below `n` whose fetch failed. */
  function FailedBelow(n: nat, fetch: nat -> Fetch): set<nat> {
    set i: nat | i < n && fetch(i).Failed?
  }

  lemma FailedBelowAdd(n: nat, fetch: nat -> Fetch)
    requires fetch(n).Failed?
    ensures FailedBelow(n + 1, fetch) == FailedBelow(n, fetch) + {n}
  {
  }

  lemma FailedBelowSame(n: nat, fetch: nat -> Fetch)
    requires !fetch(n).Failed?
    ensures FailedBelow(n + 1, fetch) == FailedBelow(n, fetch)
  {
  }

  lemma FailedBelowStep(n: nat, fetch: nat -> Fetch)
    ensures |FailedBelow(n + 1, fetch)| == |FailedBelow(n, fetch)| + (if fetch(n).Failed? then 1 else 0)
  {
    if fetch(n).Failed? {
      FailedBelowAdd(n, fetch);
      assert n !in FailedBelow(n, fetch);
    } else {
      FailedBelowSame(n, fetch);
    }
  }

  /** Exactly the failing feeds are reported, one warning per failed position. */
  lemma {:induction false} FailedFeedsExact(feeds: seq<Feed>, fetch: nat -> Fetch)
    ensures |FailedFeeds(feeds, fetch)| == |FailedBelow(|feeds|, fetch)|
    decreases |feeds|
  {
    var n := |feeds|;
    if n > 0 {
      FailedFeedsExact(feeds[..n - 1], fetch);
      FailedBelowStep(n - 1, fetch);
    }
  }

  // ---------------------------------------------------------- the store object

  /** `store.json` in memory. */
  class Store {
    var items: map<string, Item>
    var order: seq<string>
    var lastRunAt: Option<string>

    ghost predicate Valid()
      reads this`items, this`order
    {
      Wf(Snap())
    }

    function Snap(): Snapshot
      reads this`items, this`order
    {
      Snapshot(items, order)
    }

    /** `{ items: {}, lastRunAt: null }`: the store used when none is saved yet. */
    constructor Empty()
      ensures Valid() && items == map[] && order == [] && lastRunAt == None
    {
      items := map[];
      order := [];
      lastRunAt := None;
    }

    /** `if (store.items[id]) continue; store.items[id] = { ... }`. */
    method Add(f: Feed, it: RawItem, c: Clock) returns (added: bool)
      requires Valid()
      modifies this
      ensures Valid()
      ensures Snap() == AddItem(old(Snap()), f, it, c)
      ensures lastRunAt == old(lastRunAt)
      ensures added <==> KeyOf(f, it) !in old(items)
      ensures |items| == |old(items)| + (if added then 1 else 0)
    {
      AddItemFacts(Snap(), f, it, c);
      var id := KeyOf(f, it);
      if id in items {
        return false;
      }
      items := items[id := ItemOf(f, it, c)];
      order := order + [id];
      added := true;
    }

    /** The inner loop over one feed's items; returns how many were inserted. */
    method MergeFeed(f: Feed, its: seq<RawItem>, c: Clock) returns (n: nat)
      requires Valid()
      modifies this
      ensures Valid()
      ensures Snap() == AddAll(old(Snap()), f, its, c)
      ensures lastRunAt == old(lastRunAt)
      ensures |items| == |old(items)| + n
    {
      n := 0;
      var i := 0;
      while i < |its|
        invariant 0 <= i <= |its|
        invariant Valid()
        invariant Snap() == AddAll(old(Snap()), f, its[..i], c)
        invariant lastRunAt == old(lastRunAt)
        invariant |items| == |old(items)| + n
      {
        AddAllStep(old(Snap()), f, its, c, i);
        var added := Add(f, its[i], c);
        if added {
          n := n + 1;
        }
        i := i + 1;
      }
      assert its[..i] == its;
    }

    /** The `try` block for one feed: its items are merged, or the error it threw is returned. */
    method MergeFetch(f: Feed, fe: Fetch, c: Clock) returns (n: nat, error: Option<string>)
      requires Valid()
      modifies this
      ensures Valid()
      ensures Snap() == AddFeed(old(Snap()), f, fe, c)
      ensures |items| == |old(items)| + n
      ensures error == if fe.Failed? then Some(fe.message) else None
      ensures lastRunAt == old(lastRunAt)
    {
      match fe {
        case Failed(message) =>
          return 0, Some(message);
        case Fetched(fetched) =>
          var its := if fetched.Some? then fetched.value else [];
          n := MergeFeed(f, its, c);
          error := None;
      }
    }

    /**
     * The loop over the configured feeds: each feed's items are merged, and a
     * feed whose fetch throws is reported and skipped.
     */
    method Merge(feeds: seq<Feed>, fetch: nat -> Fetch, c: Clock) returns (newCount: nat, failures: seq<(Feed, string)>)
      requires Valid()
      modifies this
      ensures Valid()
      ensures Snap() == AddFeeds(old(Snap()), feeds, fetch, c)
      ensures newCount == |items| - |old(items)|
      ensures failures == FailedFeeds(feeds, fetch)
      ensures lastRunAt == old(lastRunAt)
    {
      newCount := 0;
      failures := [];
      var i := 0;
      while i < |feeds|
        invariant 0 <= i <= |feeds|
        invariant Valid()
        invariant Snap() == AddFeeds(old(Snap()), feeds[..i], fetch, c)
        invariant newCount == |items| - |old(items)|
        invariant failures == FailedFeeds(feeds[..i], fetch)
        invariant lastRunAt == old(lastRunAt)
      {
        AddFeedsStep(old(Snap()), feeds, fetch, c, i);
        var n, error := MergeFetch(feeds[i], fetch(i), c);
        newCount := newCount + n;
        if error.Some? {
          failures := failures + [(feeds[i], error.value)];
        }
        i := i + 1;
      }
      assert feeds[..i] == feeds;
    }

    /**
     * update.js as a whole: without a configuration it stops with an error and
     * leaves the store alone; otherwise it merges every feed, stamps
     * `lastRunAt` and returns the number of new items.
     */
    method Update(cfg: Option<Config>, fetch: nat -> Fetch, c: Clock) returns (r: Result<nat, string>, failures: seq<(Feed, string)>)
      requires Valid()
      modifies this
      ensures Valid()
      ensures cfg.None? ==> r == Err("missing feeds.json") && Snap() == old(Snap()) && lastRunAt == old(lastRunAt)
      ensures cfg.Some? ==> r.Ok? && r.value == |items| - |old(items)|
      ensures cfg.Some? ==> Snap() == AddFeeds(old(Snap()), cfg.value.feeds, fetch, c)
      ensures cfg.Some? ==> failures == FailedFeeds(cfg.value.feeds, fetch) && lastRunAt == Some(c.nowIso)
    {
      if cfg.None? {
        return Err("missing feeds.json"), [];
      }
      var newCount;
      newCount, failures := Merge(cfg.value.feeds, fetch, c);
      lastRunAt := Some(c.nowIso);
      r := Ok(newCount);
    }
  }

  /** The warning update.js prints for a failed feed. */
  function UpdateWarning(f: Feed, message: string): (r: string)
    ensures |r| > |f.name| + |f.url| + |message|
  {
    "[warn] failed: " + f.name + " " + f.url + " -> " + message
  }
}
