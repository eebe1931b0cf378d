/**
 * The run of the meme-alpha scanner (`main` in dex_push.js): candidate
 * aggregation, the worker loop with its cooldown map, output dedup and
 * ranking, and the state written back.
 */
module DexScan {
  import opened Wrappers
  import Seqs
  import opened DexPush

  // ---------------------------------------------------------- aggregation

  /** A listing row; "" stands for a missing field. */
  datatype Row = Row(chainId: string, tokenAddress: string)
  datatype Candidate = Candidate(chainId: string, tokenAddress: string)

  /** A listing feed: None when the response is not a JSON array. */
  type Feed = Option<seq<Row>>

  /** The `${chainId}:${address}` keys of `seen`, `boostedSet` and `sentPairs`. */
  function Key(chainId: string, address: string): string {
    chainId + ":" + address
  }

  function CandidateKey(c: Candidate): string { Key(c.chainId, c.tokenAddress) }

  function RowsOf(f: Feed): seq<Row> { if f.Some? then f.value else [] }

  /** A row is taken when its chain is configured and both chain and token are present. */
  predicate Admits(chains: seq<string>, row: Row) {
    row.chainId in chains && row.tokenAddress != "" && row.chainId != ""
  }

  predicate Admissible(chains: seq<string>, s: seq<Candidate>) {
    forall x :: x in s ==> x.chainId in chains && x.tokenAddress != "" && x.chainId != ""
  }

  /** The candidates of one feed's admitted rows, in row order. */
  function AcceptedRows(chains: seq<string>, rows: seq<Row>): (r: seq<Candidate>)
    ensures |r| <= |rows|
  {
    if rows == [] then []
    else
      var last := rows[|rows| - 1];
      AcceptedRows(chains, rows[..|rows| - 1])
        + (if Admits(chains, last) then [Candidate(last.chainId, last.tokenAddress)] else [])
  }

  /** The number of rows the feeds hold together. */
  function RowCount(feeds: seq<Feed>): nat {
    if feeds == [] then 0 else RowCount(feeds[..|feeds| - 1]) + |RowsOf(feeds[|feeds| - 1])|
  }

  /** The candidates of all feeds, in feed order then row order. */
  function Stream(chains: seq<string>, feeds: seq<Feed>): (r: seq<Candidate>)
    ensures |r| <= RowCount(feeds)
  {
    if feeds == [] then []
    else Stream(chains, feeds[..|feeds| - 1]) + AcceptedRows(chains, RowsOf(feeds[|feeds| - 1]))
  }

  lemma {:induction false} AcceptedRowsAdmissible(chains: seq<string>, rows: seq<Row>)
    ensures Admissible(chains, AcceptedRows(chains, rows))
  {
    if rows != [] {
      AcceptedRowsAdmissible(chains, rows[..|rows| - 1]);
    }
  }

  /** Every streamed candidate has a configured chain and a token address. */
  lemma {:induction false} StreamAdmissible(chains: seq<string>, feeds: seq<Feed>)
    ensures Admissible(chains, Stream(chains, feeds))
  {
    if feeds != [] {
      StreamAdmissible(chains, feeds[..|feeds| - 1]);
      AcceptedRowsAdmissible(chains, RowsOf(feeds[|feeds| - 1]));
    }
  }

  function KeysOf(s: seq<Candidate>): set<string> {
    set x | x in s :: CandidateKey(x)
  }

  predicate DistinctKeys(s: seq<Candidate>) {
    forall i, j :: 0 <= i < j < |s| ==> CandidateKey(s[i]) != CandidateKey(s[j])
  }

  /** The first candidate of each key, in stream order. */
  function FirstOccurrences(s: seq<Candidate>): (r: seq<Candidate>)
    ensures |r| <= |s|
  {
    if s == [] then []
    else
      var init := FirstOccurrences(s[..|s| - 1]);
      var x := s[|s| - 1];
      if CandidateKey(x) in KeysOf(init) then init else init + [x]
  }

  /** One candidate per key, every key of the stream represented, nothing invented. */
  lemma {:induction false} FirstOccurrencesFacts(s: seq<Candidate>)
    ensures DistinctKeys(FirstOccurrences(s))
    ensures forall x :: x in FirstOccurrences(s) ==> x in s
    ensures KeysOf(FirstOccurrences(s)) == KeysOf(s)
  {
    if s != [] {
      var init := FirstOccurrences(s[..|s| - 1]);
      var x := s[|s| - 1];
      FirstOccurrencesFacts(s[..|s| - 1]);
      assert s == s[..|s| - 1] + [x];
      assert KeysOf(s) == KeysOf(s[..|s| - 1]) + {CandidateKey(x)};
      if CandidateKey(x) !in KeysOf(init) {
        assert KeysOf(init + [x]) == KeysOf(init) + {CandidateKey(x)};
      }
    }
  }

  /** The first occurrence of every key is the one kept. */
  lemma {:induction false} FirstOccurrenceKept(s: seq<Candidate>, k: nat)
    requires k < |s|
    requires forall m :: 0 <= m < k ==> CandidateKey(s[m]) != CandidateKey(s[k])
    ensures s[k] in FirstOccurrences(s)
  {
    var init := FirstOccurrences(s[..|s| - 1]);
    FirstOccurrencesFacts(s[..|s| - 1]);
    if k < |s| - 1 {
      FirstOccurrenceKept(s[..|s| - 1], k);
    }
  }

  predicate IsPrefix<T(==)>(a: seq<T>, b: seq<T>) {
    |a| <= |b| && a == b[..|a|]
  }

  lemma {:induction false} FirstOccurrencesPrefix(a: seq<Candidate>, b: seq<Candidate>)
    requires IsPrefix(a, b)
    ensures IsPrefix(FirstOccurrences(a), FirstOccurrences(b))
  {
    if |a| < |b| {
      assert b[..|b| - 1][..|a|] == a;
      FirstOccurrencesPrefix(a, b[..|b| - 1]);
    } else {
      assert a == b;
    }
  }

  lemma {:induction false} AcceptedRowsPrefix(chains: seq<string>, rows: seq<Row>, r: nat)
    requires r <= |rows|
    ensures IsPrefix(AcceptedRows(chains, rows[..r]), AcceptedRows(chains, rows))
  {
    if r < |rows| {
      assert rows[..|rows| - 1][..r] == rows[..r];
      AcceptedRowsPrefix(chains, rows[..|rows| - 1], r);
    } else {
      assert rows[..r] == rows;
    }
  }

  lemma {:induction false} StreamPrefix(chains: seq<string>, feeds: seq<Feed>, f: nat)
    requires f <= |feeds|
    ensures IsPrefix(Stream(chains, feeds[..f]), Stream(chains, feeds))
  {
    if f < |feeds| {
      assert feeds[..|feeds| - 1][..f] == feeds[..f];
      StreamPrefix(chains, feeds[..|feeds| - 1], f);
    } else {
      assert feeds[..f] == feeds;
    }
  }

  /** What the loop has read after `r` rows of feed `f` is a prefix of the whole stream. */
  lemma ConsumedIsPrefix(chains: seq<string>, feeds: seq<Feed>, f: nat, r: nat)
    requires f < |feeds| && r <= |RowsOf(feeds[f])|
    ensures IsPrefix(Stream(chains, feeds[..f]) + AcceptedRows(chains, RowsOf(feeds[f])[..r]), Stream(chains, feeds))
  {
    var pre, rows := Stream(chains, feeds[..f]), RowsOf(feeds[f]);
    var part, all := AcceptedRows(chains, rows[..r]), AcceptedRows(chains, rows);
    AcceptedRowsPrefix(chains, rows, r);
    StreamStep(chains, feeds, f);
    StreamPrefix(chains, feeds, f + 1);
    assert pre + part == (pre + all)[..|pre| + |part|];
  }

  lemma StreamStep(chains: seq<string>, feeds: seq<Feed>, f: nat)
    requires f < |feeds|
    ensures Stream(chains, feeds[..f + 1]) == Stream(chains, feeds[..f]) + AcceptedRows(chains, RowsOf(feeds[f]))
  {
    assert feeds[..f + 1][..f] == feeds[..f];
  }

  /** One more row read by the aggregation loop, after the candidates `prefix` of the feeds before. */
  lemma RowStep(chains: seq<string>, prefix: seq<Candidate>, rows: seq<Row>, r: nat)
    requires r < |rows|
    ensures prefix + AcceptedRows(chains, rows[..r + 1])
         == prefix + AcceptedRows(chains, rows[..r])
            + (if Admits(chains, rows[r]) then [Candidate(rows[r].chainId, rows[r].tokenAddress)] else [])
  {
    assert rows[..r + 1][..r] == rows[..r];
    Seqs.ConcatAssoc(prefix, AcceptedRows(chains, rows[..r]),
      if Admits(chains, rows[r]) then [Candidate(rows[r].chainId, rows[r].tokenAddress)] else []);
  }

  /** Appending a candidate whose key is new extends the key set and keeps the first occurrences. */
  lemma AppendFresh(before: seq<Candidate>, x: Candidate)
    requires CandidateKey(x) !in KeysOf(FirstOccurrences(before))
    ensures FirstOccurrences(before + [x]) == FirstOccurrences(before) + [x]
    ensures KeysOf(FirstOccurrences(before) + [x]) == KeysOf(FirstOccurrences(before)) + {CandidateKey(x)}
  {
    assert (before + [x])[..|before|] == before;
    var fo := FirstOccurrences(before);
    assert KeysOf(fo + [x]) == KeysOf(fo) + {CandidateKey(x)} by {
      forall y | y in fo + [x] ensures y in fo || y == x { }
    }
  }

  lemma AppendSeen(before: seq<Candidate>, x: Candidate)
    requires CandidateKey(x) in KeysOf(FirstOccurrences(before))
    ensures FirstOccurrences(before + [x]) == FirstOccurrences(before)
  {
    assert (before + [x])[..|before|] == before;
  }

  /** One row of the inner loop: skipped when it is not admitted or its key is seen, pushed otherwise. */
  method TakeRow(chains: seq<string>, ghost prefix: seq<Candidate>, rows: seq<Row>, r: nat,
                 tokens0: seq<Candidate>, seen0: set<string>)
    returns (tokens: seq<Candidate>, seen: set<string>, pushed: bool)
    requires r < |rows|
    requires tokens0 == FirstOccurrences(prefix + AcceptedRows(chains, rows[..r])) && seen0 == KeysOf(tokens0)
    ensures tokens == FirstOccurrences(prefix + AcceptedRows(chains, rows[..r + 1]))
    ensures seen == KeysOf(tokens)
    ensures pushed ==> tokens == tokens0 + [Candidate(rows[r].chainId, rows[r].tokenAddress)]
    ensures !pushed ==> tokens == tokens0
  {
    RowStep(chains, prefix, rows, r);
    ghost var before := prefix + AcceptedRows(chains, rows[..r]);
    var row := rows[r];
    tokens, seen, pushed := tokens0, seen0, false;
    if !(row.chainId in chains) || row.tokenAddress == "" || row.chainId == "" {
      Seqs.ConcatEmpty(before);
      return;
    }
    var t := row.tokenAddress;
    var k := Key(row.chainId, t);
    if k in seen {
      AppendSeen(before, Candidate(row.chainId, t));
      return;
    }
    AppendFresh(before, Candidate(row.chainId, t));
    seen := seen + {k};
    tokens := tokens + [Candidate(row.chainId, t)];
    pushed := true;
  }

  /**
   * The inner loop of the aggregation (dex_push.js lines 196-208): the rows
   * of one feed, skipping rows that are not admitted or whose key is seen,
   * stopping as soon as the list reaches `limit`. `consumed` counts the rows
   * read, the one that filled the list included.
   */
  method TakeRows(chains: seq<string>, ghost prefix: seq<Candidate>, rows: seq<Row>,
                  tokens0: seq<Candidate>, seen0: set<string>, limit: int)
    returns (tokens: seq<Candidate>, seen: set<string>, ghost consumed: nat)
    requires tokens0 == FirstOccurrences(prefix) && seen0 == KeysOf(tokens0)
    requires limit >= 1 ==> |tokens0| < limit
    requires limit <= 0 ==> tokens0 == []
    ensures consumed <= |rows|
    ensures tokens == FirstOccurrences(prefix + AcceptedRows(chains, rows[..consumed]))
    ensures seen == KeysOf(tokens)
    ensures |tokens| >= limit || consumed == |rows|
    ensures limit >= 1 ==> |tokens| <= limit
    ensures limit <= 0 ==> |tokens| <= 1
  {
    tokens, seen := tokens0, seen0;
    var r := 0;
    assert rows[..0] == [];
    Seqs.ConcatEmpty(prefix);
    while r < |rows|
      invariant 0 <= r <= |rows|
      invariant tokens == FirstOccurrences(prefix + AcceptedRows(chains, rows[..r])) && seen == KeysOf(tokens)
      invariant if limit >= 1 then |tokens| < limit else tokens == []
    {
      var pushed;
      tokens, seen, pushed := TakeRow(chains, prefix, rows, r, tokens, seen);
      if pushed && |tokens| >= limit {
        return tokens, seen, r + 1;
      }
      r := r + 1;
    }
    consumed := r;
  }

  /**
   * The aggregation loop (dex_push.js lines 194-210): feeds in order
   * (profiles, boosts top, boosts latest), one candidate per key, stopping
   * once the list reaches `limit`. A `limit` below one still admits the
   * first candidate, because the bound is checked after each push.
   */
  method CollectCandidates(chains: seq<string>, feeds: seq<Feed>, limit: int) returns (tokens: seq<Candidate>)
    ensures IsPrefix(tokens, FirstOccurrences(Stream(chains, feeds)))
    ensures |tokens| <= Seqs.Max(limit, 1)
    ensures limit >= 1 ==> |tokens| == Seqs.Min(limit, |FirstOccurrences(Stream(chains, feeds))|)
    ensures DistinctKeys(tokens)
    ensures Admissible(chains, tokens)
  {
    tokens := [];
    var seen: set<string> := {};
    var f := 0;
    while f < |feeds|
      invariant 0 <= f <= |feeds|
      invariant tokens == FirstOccurrences(Stream(chains, feeds[..f]))
      invariant seen == KeysOf(tokens)
      invariant limit >= 1 ==> |tokens| < limit
      invariant limit <= 0 ==> tokens == []
    {
      StreamStep(chains, feeds, f);
      if feeds[f].None? {
        assert AcceptedRows(chains, RowsOf(feeds[f])) == [];
        Seqs.ConcatEmpty(Stream(chains, feeds[..f]));
        f := f + 1;
        continue;
      }
      var rows := feeds[f].value;
      ghost var consumed;
      tokens, seen, consumed := TakeRows(chains, Stream(chains, feeds[..f]), rows, tokens, seen, limit);
      if |tokens| >= limit {
        ConsumedIsPrefix(chains, feeds, f, consumed);
        FirstOccurrencesPrefix(Stream(chains, feeds[..f]) + AcceptedRows(chains, rows[..consumed]), Stream(chains, feeds));
        CollectedFacts(chains, feeds, tokens, limit);
        return;
      }
      assert rows[..consumed] == rows;
      f := f + 1;
    }
    assert feeds[..f] == feeds;
    CollectedFacts(chains, feeds, tokens, limit);
  }

  /** What the aggregation loop promises once it has stopped, early or at the end of the feeds. */
  lemma CollectedFacts(chains: seq<string>, feeds: seq<Feed>, tokens: seq<Candidate>, limit: int)
    requires IsPrefix(tokens, FirstOccurrences(Stream(chains, feeds)))
    requires |tokens| >= limit || tokens == FirstOccurrences(Stream(chains, feeds))
    requires limit >= 1 ==> |tokens| <= limit
    requires limit <= 0 ==> |tokens| <= 1
    ensures |tokens| <= Seqs.Max(limit, 1)
    ensures limit >= 1 ==> |tokens| == Seqs.Min(limit, |FirstOccurrences(Stream(chains, feeds))|)
    ensures DistinctKeys(tokens)
    ensures Admissible(chains, tokens)
  {
    var all := FirstOccurrences(Stream(chains, feeds));
    FirstOccurrencesFacts(Stream(chains, feeds));
    StreamAdmissible(chains, feeds);
    forall x | x in tokens ensures x in all {
      var i :| 0 <= i < |tokens| && tokens[i] == x;
      assert all[i] == x;
    }
  }

  // ------------------------------------------------------------- boosted

  /** The `chainId:tokenAddress` keys of the boost feeds' rows on configured chains. */
  function BoostedKeys(chains: seq<string>, top: Feed, latest: Feed): (r: set<string>)
    ensures forall x :: x in RowsOf(top) + RowsOf(latest) && x.chainId in chains ==> Key(x.chainId, x.tokenAddress) in r
    ensures forall k :: k in r ==> exists x :: x in RowsOf(top) + RowsOf(latest) && x.chainId in chains && k == Key(x.chainId, x.tokenAddress)
  {
    set x | x in RowsOf(top) + RowsOf(latest) && x.chainId in chains :: Key(x.chainId, x.tokenAddress)
  }

  // ------------------------------------------------------------- workers

  /** A per-token pair lookup: the request failed, or it returned the (possibly missing) `pairs` array. */
  datatype Lookup = LookupFailed | LookupOk(pairs: Option<seq<Pair>>)

  /** What one run is given: thresholds, boosted keys, the clock reading and the cooldown in ms. */
  datatype Env = Env(cfg: Config, boosted: set<string>, now: int, cooldownMs: int)

  datatype Alert = Alert(whenMs: int, chainId: string, tokenAddress: string, pairAddress: string,
                         url: string, score: int, reasons: seq<Reason>, metrics: Metrics)

  /** The cooldown key: chain and pair address. */
  function AlertKey(a: Alert): string { Key(a.chainId, a.pairAddress) }

  function AlertKeys(alerts: seq<Alert>): set<string> {
    set a | a in alerts :: AlertKey(a)
  }

  /** `state.sentPairs[pairKey] ?? 0`. */
  function LastSent(sent: map<string, int>, k: string): int {
    if k in sent then sent[k] else 0
  }

  predicate Cooling(env: Env, sent: map<string, int>, k: string)
    ensures k in sent ==> (Cooling(env, sent, k) <==> sent[k] > env.now - env.cooldownMs)
    ensures k !in sent ==> (Cooling(env, sent, k) <==> env.now < env.cooldownMs)
  {
    env.now - LastSent(sent, k) < env.cooldownMs
  }

  function Picked(lookup: Lookup, chainId: string): Option<Pair> {
    if lookup.LookupFailed? then None else PickBestPair(lookup.pairs, chainId)
  }

  /** The alert a candidate yields when its pair key is not cooling down. */
  function Qualify(env: Env, cand: Candidate, lookup: Lookup): (r: Option<Alert>)
    requires ValidConfig(env.cfg)
    ensures r.Some? ==> r.value.score >= AlertThreshold && r.value.whenMs == env.now
    ensures r.Some? ==> forall g :: g in r.value.reasons ==> !IsGate(g)
    ensures r.Some? ==> r.value.chainId == cand.chainId && r.value.tokenAddress == cand.tokenAddress
    ensures r.Some? ==> Picked(lookup, cand.chainId).Some? && r.value.pairAddress == Picked(lookup, cand.chainId).value.pairAddress
    ensures r.Some? <==> (Picked(lookup, cand.chainId).Some? &&
      var s := ScorePair(env.cfg, Picked(lookup, cand.chainId).value, Key(cand.chainId, cand.tokenAddress) in env.boosted);
      s.pass && s.score >= AlertThreshold)
    ensures r.Some? ==>
      var s := ScorePair(env.cfg, Picked(lookup, cand.chainId).value, Key(cand.chainId, cand.tokenAddress) in env.boosted);
      && r.value.score == s.score && r.value.reasons == s.reasons && r.value.metrics == s.metrics
      && r.value.url == Picked(lookup, cand.chainId).value.url
  {
    var best := Picked(lookup, cand.chainId);
    if best.None? then None
    else
      var scored := ScorePair(env.cfg, best.value, Key(cand.chainId, cand.tokenAddress) in env.boosted);
      if scored.pass && scored.score >= AlertThreshold then
        Some(Alert(env.now, cand.chainId, cand.tokenAddress, best.value.pairAddress, best.value.url,
                   scored.score, scored.reasons, scored.metrics))
      else None
  }

  /**
   * The worker body for one candidate (dex_push.js lines 223-253): pick the
   * pair, skip it while its key cools down, score it, alert on pass and a
   * score of at least 60.
   */
  function Evaluate(env: Env, sent: map<string, int>, cand: Candidate, lookup: Lookup): (r: Option<Alert>)
    requires ValidConfig(env.cfg)
    ensures r.Some? <==> Qualify(env, cand, lookup).Some? && !Cooling(env, sent, AlertKey(Qualify(env, cand, lookup).value))
    ensures r.Some? ==> r == Qualify(env, cand, lookup)
  {
    var best := Picked(lookup, cand.chainId);
    if best.None? then None
    else if Cooling(env, sent, Key(cand.chainId, best.value.pairAddress)) then None
    else Qualify(env, cand, lookup)
  }

  /**
   * Liveness of the trigger: a candidate whose only pair is the healthy pair
   * of `DexPush.HealthyPairAlerts`, not boosted and not cooling down, alerts
   * with score 85, no reasons, and the pair's address and url.
   */
  lemma HealthyCandidateAlerts(env: Env, sent: map<string, int>)
    requires env.cfg == DefaultConfig && Key("solana", "T") !in env.boosted
    requires !Cooling(env, sent, Key("solana", "P"))
    ensures var p := Pair("solana", "P", "T", "u", Some(50000.0), Some(8000.0), Some(40000.0), Some(30.0), Some(20.0), Some(2000000.0));
      var r := Evaluate(env, sent, Candidate("solana", "T"), LookupOk(Some([p])));
      && r.Some? && r.value.score == 85 && r.value.reasons == []
      && r.value.pairAddress == "P" && r.value.url == "u" && r.value.whenMs == env.now
  {
    var p := Pair("solana", "P", "T", "u", Some(50000.0), Some(8000.0), Some(40000.0), Some(30.0), Some(20.0), Some(2000000.0));
    assert Picked(LookupOk(Some([p])), "solana") == Some(p);
    ScoreIsRoundedRawMinusPenalties(DefaultConfig, p, false);
    assert RawScore(DefaultConfig, MetricsOf(p)) == 100.0 / 3.0 + 35.0 + 50.0 / 3.0;
    assert Round(85.0) == 85;
  }

  /** `sent` with every alert key set to `now`. */
  function Stamp(sent: map<string, int>, alerts: seq<Alert>, now: int): (r: map<string, int>)
    ensures forall k :: k in r <==> k in sent || k in AlertKeys(alerts)
    ensures forall a :: a in alerts ==> AlertKey(a) in r && r[AlertKey(a)] == now
  {
    sent + map k | k in AlertKeys(alerts) :: now
  }

  datatype ScanResult = ScanResult(alerts: seq<Alert>, sent: map<string, int>)

  /** The candidates in order, each evaluated against the map as updated so far. */
  function Scan(env: Env, sent0: map<string, int>, cands: seq<Candidate>, lookups: seq<Lookup>): (r: ScanResult)
    requires ValidConfig(env.cfg) && |lookups| == |cands|
    ensures |r.alerts| <= |cands|
  {
    if cands == [] then ScanResult([], sent0)
    else
      var n := |cands| - 1;
      var prev := Scan(env, sent0, cands[..n], lookups[..n]);
      var e := Evaluate(env, prev.sent, cands[n], lookups[n]);
      if e.Some? then ScanResult(prev.alerts + [e.value], prev.sent[AlertKey(e.value) := env.now])
      else prev
  }

  /** The alert each candidate would yield ignoring the cooldown. */
  function Qualifications(env: Env, cands: seq<Candidate>, lookups: seq<Lookup>): (qs: seq<Option<Alert>>)
    requires ValidConfig(env.cfg) && |lookups| == |cands|
    ensures |qs| == |cands|
    ensures forall i :: 0 <= i < |cands| ==> qs[i] == Qualify(env, cands[i], lookups[i])
  {
    seq(|cands|, i requires 0 <= i < |cands| => Qualify(env, cands[i], lookups[i]))
  }

  /**
   * Reference for the worker loop: a candidate alerts when it qualifies, its
   * key is not cooling down in the loaded map, and (with a positive cooldown)
   * no earlier candidate alerted for the same key.
   */
  function FirstPerKey(env: Env, sent0: map<string, int>, qs: seq<Option<Alert>>): (r: seq<Alert>)
    ensures forall a :: a in r ==> Some(a) in qs && !Cooling(env, sent0, AlertKey(a))
  {
    if qs == [] then []
    else
      var n := |qs| - 1;
      var prev := FirstPerKey(env, sent0, qs[..n]);
      var q := qs[n];
      if q.Some? && !Cooling(env, sent0, AlertKey(q.value)) && !(env.cooldownMs > 0 && AlertKey(q.value) in AlertKeys(prev))
      then prev + [q.value]
      else prev
  }

  lemma AlertKeysAppend(alerts: seq<Alert>, a: Alert)
    ensures AlertKeys(alerts + [a]) == AlertKeys(alerts) + {AlertKey(a)}
  {
    forall x | x in alerts + [a] ensures x in alerts || x == a { }
  }

  lemma QualificationsPrefix(env: Env, cands: seq<Candidate>, lookups: seq<Lookup>, n: nat)
    requires ValidConfig(env.cfg) && |lookups| == |cands| && n <= |cands|
    ensures Qualifications(env, cands, lookups)[..n] == Qualifications(env, cands[..n], lookups[..n])
  {
  }

  /** One step of the worker loop agrees with one step of the reference. */
  lemma ScanStep(env: Env, sent0: map<string, int>, prev: ScanResult, cand: Candidate, lookup: Lookup)
    requires ValidConfig(env.cfg)
    requires prev.sent == Stamp(sent0, prev.alerts, env.now)
    requires forall a :: a in prev.alerts ==> !Cooling(env, sent0, AlertKey(a))
    ensures var q := Qualify(env, cand, lookup);
            Evaluate(env, prev.sent, cand, lookup)
            == if q.Some? && !Cooling(env, sent0, AlertKey(q.value)) && !(env.cooldownMs > 0 && AlertKey(q.value) in AlertKeys(prev.alerts))
               then q else None
  {
    var q := Qualify(env, cand, lookup);
    if q.Some? {
      var k := AlertKey(q.value);
      if k in AlertKeys(prev.alerts) {
        var b :| b in prev.alerts && AlertKey(b) == k;
        assert LastSent(prev.sent, k) == env.now;
      } else {
        assert LastSent(prev.sent, k) == LastSent(sent0, k);
      }
    }
  }

  /** The sequential worker loop is the reference, and the map ends up stamped at exactly the alert keys. */
  lemma {:induction false} ScanIsFirstPerKey(env: Env, sent0: map<string, int>, cands: seq<Candidate>, lookups: seq<Lookup>)
    requires ValidConfig(env.cfg) && |lookups| == |cands|
    ensures Scan(env, sent0, cands, lookups).alerts == FirstPerKey(env, sent0, Qualifications(env, cands, lookups))
    ensures Scan(env, sent0, cands, lookups).sent == Stamp(sent0, Scan(env, sent0, cands, lookups).alerts, env.now)
  {
    var qs := Qualifications(env, cands, lookups);
    if cands == [] {
      assert AlertKeys([]) == {};
      assert Stamp(sent0, [], env.now) == sent0;
    } else {
      var n := |cands| - 1;
      var prev := Scan(env, sent0, cands[..n], lookups[..n]);
      ScanIsFirstPerKey(env, sent0, cands[..n], lookups[..n]);
      QualificationsPrefix(env, cands, lookups, n);
      ScanStep(env, sent0, prev, cands[n], lookups[n]);
      var e := Evaluate(env, prev.sent, cands[n], lookups[n]);
      if e.Some? {
        StampAppend(sent0, prev.alerts, e.value, env.now);
      }
    }
  }

  lemma StampAppend(sent: map<string, int>, alerts: seq<Alert>, a: Alert, now: int)
    ensures Stamp(sent, alerts + [a], now) == Stamp(sent, alerts, now)[AlertKey(a) := now]
  {
    AlertKeysAppend(alerts, a);
  }

  /** Every alert of the run passed the hard gates with a score of at least 60, and its key was not cooling down. */
  lemma AlertsQualify(env: Env, sent0: map<string, int>, cands: seq<Candidate>, lookups: seq<Lookup>)
    requires ValidConfig(env.cfg) && |lookups| == |cands|
    ensures forall a :: a in Scan(env, sent0, cands, lookups).alerts ==>
              a.score >= AlertThreshold && a.whenMs == env.now && !Cooling(env, sent0, AlertKey(a))
              && (forall g :: g in a.reasons ==> !IsGate(g))
  {
    ScanIsFirstPerKey(env, sent0, cands, lookups);
    var qs := Qualifications(env, cands, lookups);
    forall a | a in FirstPerKey(env, sent0, qs)
      ensures a.score >= AlertThreshold && a.whenMs == env.now && (forall g :: g in a.reasons ==> !IsGate(g))
    {
      var i :| 0 <= i < |qs| && qs[i] == Some(a);
    }
  }

  predicate AlertKeysDistinct(alerts: seq<Alert>) {
    forall i, j :: 0 <= i < j < |alerts| ==> AlertKey(alerts[i]) != AlertKey(alerts[j])
  }

  lemma AppendDistinct(prev: seq<Alert>, a: Alert)
    requires AlertKeysDistinct(prev) && AlertKey(a) !in AlertKeys(prev)
    ensures AlertKeysDistinct(prev + [a])
  {
    var alerts := prev + [a];
    forall i, j | 0 <= i < j < |alerts| ensures AlertKey(alerts[i]) != AlertKey(alerts[j]) {
      assert alerts[i] == prev[i];
      if j == |prev| {
        assert prev[i] in prev;
      } else {
        assert alerts[j] == prev[j];
      }
    }
  }

  /** With a positive cooldown each pair key alerts at most once per run. */
  lemma {:induction false} OncePerKey(env: Env, sent0: map<string, int>, qs: seq<Option<Alert>>)
    requires env.cooldownMs > 0
    ensures AlertKeysDistinct(FirstPerKey(env, sent0, qs))
  {
    if qs != [] {
      var n := |qs| - 1;
      OncePerKey(env, sent0, qs[..n]);
      var prev := FirstPerKey(env, sent0, qs[..n]);
      var q := qs[n];
      if q.Some? && !Cooling(env, sent0, AlertKey(q.value)) && !(env.cooldownMs > 0 && AlertKey(q.value) in AlertKeys(prev)) {
        AppendDistinct(prev, q.value);
      }
    }
  }

  /** Only the alert keys change in the sent map, and they become `now`. */
  lemma StampChangesOnlyAlertKeys(sent: map<string, int>, alerts: seq<Alert>, now: int, k: string)
    ensures k in Stamp(sent, alerts, now) <==> k in sent || k in AlertKeys(alerts)
    ensures LastSent(Stamp(sent, alerts, now), k) == if k in AlertKeys(alerts) then now else LastSent(sent, k)
  {
  }

  // --------------------------------------------------------------- dedup

  /** The output dedup key `pairAddress || tokenAddress`: unlike the cooldown key it has no chain. */
  function DedupKey(a: Alert): string {
    if a.pairAddress != "" then a.pairAddress else a.tokenAddress
  }

  /** The `uniq` Map: keys in insertion order and the kept alert per key. */
  datatype Uniq = Uniq(order: seq<string>, best: map<string, Alert>)

  ghost predicate WellFormed(u: Uniq) {
    && (forall k :: k in u.order <==> k in u.best)
    && (forall i, j :: 0 <= i < j < |u.order| ==> u.order[i] != u.order[j])
  }

  /** The dedup loop as a fold: a key is inserted once; a strictly higher score replaces its alert in place. */
  function UniqOf(alerts: seq<Alert>): Uniq {
    if alerts == [] then Uniq([], map[])
    else
      var prev := UniqOf(alerts[..|alerts| - 1]);
      var a := alerts[|alerts| - 1];
      var k := DedupKey(a);
      if k == "" then prev
      else if k !in prev.best then Uniq(prev.order + [k], prev.best[k := a])
      else if a.score > prev.best[k].score then Uniq(prev.order, prev.best[k := a])
      else prev
  }

  lemma {:induction false} UniqWellFormed(alerts: seq<Alert>)
    ensures WellFormed(UniqOf(alerts))
  {
    if alerts != [] {
      UniqWellFormed(alerts[..|alerts| - 1]);
      var prev := UniqOf(alerts[..|alerts| - 1]);
      var k := DedupKey(alerts[|alerts| - 1]);
      if k != "" && k !in prev.best {
        var order := prev.order + [k];
        forall i, j | 0 <= i < j < |order| ensures order[i] != order[j] {
          if j == |prev.order| {
            assert order[i] in prev.order;
          } else {
            assert order[i] == prev.order[i] && order[j] == prev.order[j];
          }
        }
      }
    }
  }

  /** `Array.from(uniq.values())`. */
  function Values(u: Uniq): (r: seq<Alert>)
    requires WellFormed(u)
    ensures |r| == |u.order|
  {
    seq(|u.order|, i requires 0 <= i < |u.order| => u.best[u.order[i]])
  }

  /** The kept keys are exactly the non-empty dedup keys of the alerts. */
  lemma {:induction false} UniqKeys(alerts: seq<Alert>, k: string)
    ensures k in UniqOf(alerts).best <==> k != "" && exists a :: a in alerts && DedupKey(a) == k
  {
    if alerts != [] {
      var init := alerts[..|alerts| - 1];
      UniqKeys(init, k);
      assert alerts == init + [alerts[|alerts| - 1]];
      forall a | a in alerts ensures a in init || a == alerts[|alerts| - 1] { }
    }
  }

  /**
   * The alert kept for a key is the first one of maximal score among the
   * alerts with that key: `j` is its position.
   */
  lemma {:induction false} UniqKeepsFirstBest(alerts: seq<Alert>, k: string) returns (j: nat)
    requires k in UniqOf(alerts).best
    ensures j < |alerts| && alerts[j] == UniqOf(alerts).best[k] && DedupKey(alerts[j]) == k
    ensures forall i :: 0 <= i < |alerts| && DedupKey(alerts[i]) == k ==> alerts[i].score <= alerts[j].score
    ensures forall i :: 0 <= i < j && DedupKey(alerts[i]) == k ==> alerts[i].score < alerts[j].score
  {
    assert alerts != [];
    var n := |alerts| - 1;
    var init := alerts[..n];
    var prev := UniqOf(init);
    var a := alerts[n];
    var u := UniqOf(alerts);
    assert forall i :: 0 <= i < n ==> alerts[i] == init[i];
    if k in prev.best {
      UniqKeys(init, k);
      var j0 := UniqKeepsFirstBest(init, k);
      if DedupKey(a) == k && a.score > prev.best[k].score {
        assert u.best[k] == a;
        j := n;
      } else {
        assert u.best[k] == prev.best[k];
        j := j0;
      }
    } else {
      assert DedupKey(a) == k && u.best[k] == a;
      j := n;
      forall i | 0 <= i < n && DedupKey(alerts[i]) == k ensures false {
        assert init[i] in init;
        UniqKeys(init, k);
      }
    }
  }

  /**
   * The dedup loop (dex_push.js lines 264-277) with the Map kept as an
   * insertion-order key list and a map, then its values in that order.
   */
  method Dedup(alerts: seq<Alert>) returns (uniqValues: seq<Alert>)
    ensures WellFormed(UniqOf(alerts)) && uniqValues == Values(UniqOf(alerts))
  {
    var order: seq<string> := [];
    var uniq: map<string, Alert> := map[];
    var i := 0;
    while i < |alerts|
      invariant 0 <= i <= |alerts|
      invariant Uniq(order, uniq) == UniqOf(alerts[..i])
    {
      var a := alerts[i];
      assert alerts[..i + 1][..i] == alerts[..i];
      var k := DedupKey(a);
      if k == "" {
        i := i + 1;
        continue;
      }
      if k !in uniq {
        order := order + [k];
        uniq := uniq[k := a];
        i := i + 1;
        continue;
      }
      if a.score > uniq[k].score {
        uniq := uniq[k := a];
      }
      i := i + 1;
    }
    assert alerts[..i] == alerts;
    UniqWellFormed(alerts);
    uniqValues := seq(|order|, j requires 0 <= j < |order| => uniq[order[j]]);
  }

  /** The dedup output has one alert per non-empty key. */
  lemma DedupDistinct(alerts: seq<Alert>)
    ensures WellFormed(UniqOf(alerts))
    ensures var out := Values(UniqOf(alerts));
            && (forall i, j :: 0 <= i < j < |out| ==> DedupKey(out[i]) != DedupKey(out[j]))
            && (forall x :: x in out ==> x in alerts && DedupKey(x) != "")
  {
    UniqWellFormed(alerts);
    var u := UniqOf(alerts);
    var out := Values(u);
    forall i | 0 <= i < |out| ensures DedupKey(out[i]) == u.order[i] && out[i] in alerts && u.order[i] != "" {
      UniqKeys(alerts, u.order[i]);
      var j := UniqKeepsFirstBest(alerts, u.order[i]);
    }
  }

  // ------------------------------------------------------------- ranking

  /** The output comparator: score, then 1h volume, then liquidity, then 5m transactions, all descending. */
  predicate AlertBefore(a: Alert, b: Alert) {
    || a.score > b.score
    || (a.score == b.score && a.metrics.vol1 > b.metrics.vol1)
    || (a.score == b.score && a.metrics.vol1 == b.metrics.vol1 && a.metrics.liq > b.metrics.liq)
    || (a.score == b.score && a.metrics.vol1 == b.metrics.vol1 && a.metrics.liq == b.metrics.liq
        && a.metrics.tx5 >= b.metrics.tx5)
  }

  lemma AlertBeforeIsTotalPreorder()
    ensures Seqs.TotalPreorder(AlertBefore)
  {
  }

  /** Two alerts the comparator cannot order agree on all four keys. */
  predicate SameRankKeys(a: Alert, b: Alert) {
    a.score == b.score && a.metrics.vol1 == b.metrics.vol1 && a.metrics.liq == b.metrics.liq && a.metrics.tx5 == b.metrics.tx5
  }

  /** Sorting the dedup output with the comparator (lines 279-292). */
  function Ranked(uniqValues: seq<Alert>): (r: seq<Alert>)
    ensures Seqs.SortedBy(r, AlertBefore)
    ensures multiset(r) == multiset(uniqValues)
  {
    AlertBeforeIsTotalPreorder();
    Seqs.SortBySorted(uniqValues, AlertBefore);
    Seqs.SortBy(uniqValues, AlertBefore)
  }

  /**
   * The order is determined up to ties: any ordering of the same alerts
   * that the comparator accepts differs from `Ranked` only between alerts
   * equal on all four keys.
   */
  lemma RankingDeterminedUpToTies(uniqValues: seq<Alert>, other: seq<Alert>)
    requires Seqs.SortedBy(other, AlertBefore) && multiset(other) == multiset(uniqValues)
    ensures |other| == |Ranked(uniqValues)|
    ensures forall i :: 0 <= i < |other| ==> SameRankKeys(other[i], Ranked(uniqValues)[i])
  {
    AlertBeforeIsTotalPreorder();
    Seqs.SortedPermutationsAgree(other, Ranked(uniqValues), AlertBefore);
  }

  // ----------------------------------------------------------------- run

  /** A fetch that throws (network error, non-2xx status) or yields a value. */
  datatype Fetch<T> = FetchFailed | Fetched(value: T)

  /** The persisted state: last alert time per pair key, and the time of the last run. */
  datatype State = State(sentPairs: map<string, int>, lastRunMs: int)

  datatype RunError = FeedFetchFailed | NoChainsConfigured

  datatype Outcome =
    | Failed(error: RunError)
    | Done(tokens: seq<Candidate>, alerts: seq<Alert>, ranked: seq<Alert>, saved: Option<State>)

  const CooldownMsPerMin := 60_000

  function LookupsOf(tokens: seq<Candidate>, lookup: Candidate -> Lookup): (r: seq<Lookup>)
    ensures |r| == |tokens|
  {
    seq(|tokens|, i requires 0 <= i < |tokens| => lookup(tokens[i]))
  }

  /** The reference scan of one more candidate extends the scan of the ones before it. */
  lemma ScanPrefixStep(env: Env, sent0: map<string, int>, cands: seq<Candidate>, lookups: seq<Lookup>, n: nat)
    requires ValidConfig(env.cfg) && |lookups| == |cands| && n < |cands|
    ensures var prev := Scan(env, sent0, cands[..n], lookups[..n]);
            var e := Evaluate(env, prev.sent, cands[n], lookups[n]);
            Scan(env, sent0, cands[..n + 1], lookups[..n + 1])
            == if e.Some? then ScanResult(prev.alerts + [e.value], prev.sent[AlertKey(e.value) := env.now]) else prev
  {
    assert cands[..n + 1][..n] == cands[..n] && lookups[..n + 1][..n] == lookups[..n];
  }

  /** The scanner's in-memory state, as loaded at the start of `main`. */
  class Scanner {
    var sentPairs: map<string, int>
    var lastRunMs: int

    /** `loadState()`: the parsed file, or an empty map and time 0 when there is none. */
    constructor (parsed: Option<State>)
      ensures parsed.Some? ==> sentPairs == parsed.value.sentPairs && lastRunMs == parsed.value.lastRunMs
      ensures parsed.None? ==> sentPairs == map[] && lastRunMs == 0
    {
      if parsed.Some? {
        sentPairs := parsed.value.sentPairs;
        lastRunMs := parsed.value.lastRunMs;
      } else {
        sentPairs := map[];
        lastRunMs := 0;
      }
    }

    /**
     * The worker pool as one sequential loop (dex_push.js lines 217-258):
     * each candidate's lookup in turn, the cooldown check and the record of
     * an alert in `sentPairs` happening together.
     */
    method RunWorkers(env: Env, tokens: seq<Candidate>, lookups: seq<Lookup>) returns (alerts: seq<Alert>)
      requires ValidConfig(env.cfg) && |lookups| == |tokens|
      modifies this
      ensures alerts == FirstPerKey(env, old(sentPairs), Qualifications(env, tokens, lookups))
      ensures sentPairs == Stamp(old(sentPairs), alerts, env.now)
      ensures lastRunMs == old(lastRunMs)
    {
      alerts := [];
      var idx := 0;
      while idx < |tokens|
        invariant 0 <= idx <= |tokens|
        invariant ScanResult(alerts, sentPairs) == Scan(env, old(sentPairs), tokens[..idx], lookups[..idx])
        invariant lastRunMs == old(lastRunMs)
      {
        ScanPrefixStep(env, old(sentPairs), tokens, lookups, idx);
        var alert := Evaluate(env, sentPairs, tokens[idx], lookups[idx]);
        idx := idx + 1;
        if alert.Some? {
          alerts := alerts + [alert.value];
          sentPairs := sentPairs[AlertKey(alert.value) := env.now];
        }
      }
      assert tokens[..idx] == tokens && lookups[..idx] == lookups;
      ScanIsFirstPerKey(env, old(sentPairs), tokens, lookups);
    }

    /**
     * `main` (dex_push.js lines 170-295) after the state is loaded: the three
     * feeds, the chain guard, aggregation, the workers, dedup and ranking,
     * then `lastRunMs` and the save unless in dry-run mode.
     */
    method Run(chains: seq<string>, profiles: Fetch<Feed>, top: Fetch<Feed>, latest: Fetch<Feed>,
               limit: int, cfg: Config, now: int, cooldownMin: int, dryRun: bool,
               lookup: Candidate -> Lookup) returns (out: Outcome)
      requires ValidConfig(cfg)
      modifies this
      ensures profiles.FetchFailed? || top.FetchFailed? || latest.FetchFailed? ==>
                out == Failed(FeedFetchFailed) && sentPairs == old(sentPairs) && lastRunMs == old(lastRunMs)
      ensures profiles.Fetched? && top.Fetched? && latest.Fetched? && chains == [] ==>
                out == Failed(NoChainsConfigured) && sentPairs == old(sentPairs) && lastRunMs == old(lastRunMs)
      ensures profiles.Fetched? && top.Fetched? && latest.Fetched? && chains != [] ==>
                var feeds := [profiles.value, top.value, latest.value];
                var env := Env(cfg, BoostedKeys(chains, top.value, latest.value), now, cooldownMin * CooldownMsPerMin);
                && out.Done?
                && IsPrefix(out.tokens, FirstOccurrences(Stream(chains, feeds)))
                && (limit >= 1 ==> |out.tokens| == Seqs.Min(limit, |FirstOccurrences(Stream(chains, feeds))|))
                && |out.tokens| <= Seqs.Max(limit, 1)
                && out.alerts == FirstPerKey(env, old(sentPairs), Qualifications(env, out.tokens, LookupsOf(out.tokens, lookup)))
                && WellFormed(UniqOf(out.alerts))
                && out.ranked == Ranked(Values(UniqOf(out.alerts)))
                && sentPairs == Stamp(old(sentPairs), out.alerts, now)
                && lastRunMs == now
                && out.saved == (if dryRun then None else Some(State(sentPairs, lastRunMs)))
    {
      if profiles.FetchFailed? || top.FetchFailed? || latest.FetchFailed? {
        return Failed(FeedFetchFailed);
      }
      if chains == [] {
        return Failed(NoChainsConfigured);
      }
      var boostedSet := BoostedKeys(chains, top.value, latest.value);
      var feeds := [profiles.value, top.value, latest.value];
      var env := Env(cfg, boostedSet, now, cooldownMin * CooldownMsPerMin);
      out := Pipeline(chains, feeds, limit, env, dryRun, lookup);
    }

    /** The aggregation, the workers, dedup and ranking, then the stamp and the save, for fetched feeds. */
    method Pipeline(chains: seq<string>, feeds: seq<Feed>, limit: int, env: Env, dryRun: bool,
                    lookup: Candidate -> Lookup) returns (out: Outcome)
      requires ValidConfig(env.cfg)
      modifies this
      ensures && out.Done?
              && IsPrefix(out.tokens, FirstOccurrences(Stream(chains, feeds)))
              && (limit >= 1 ==> |out.tokens| == Seqs.Min(limit, |FirstOccurrences(Stream(chains, feeds))|))
              && |out.tokens| <= Seqs.Max(limit, 1)
              && out.alerts == FirstPerKey(env, old(sentPairs), Qualifications(env, out.tokens, LookupsOf(out.tokens, lookup)))
              && WellFormed(UniqOf(out.alerts))
              && out.ranked == Ranked(Values(UniqOf(out.alerts)))
              && sentPairs == Stamp(old(sentPairs), out.alerts, env.now)
              && lastRunMs == env.now
              && out.saved == (if dryRun then None else Some(State(sentPairs, lastRunMs)))
    {
      var tokens := CollectCandidates(chains, feeds, limit);
      var alerts := RunWorkers(env, tokens, LookupsOf(tokens, lookup));
      var uniqValues := Dedup(alerts);
      var sorted := Ranked(uniqValues);
      lastRunMs := env.now;
      var saved := if dryRun then None else Some(State(sentPairs, lastRunMs));
      out := Done(tokens, alerts, sorted, saved);
    }
  }
}
