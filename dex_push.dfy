/**
 * The meme-alpha scanner: candidate aggregation over three listing feeds,
 * best-pair selection, scoring with hard gates and soft penalties, the
 * cooldown-gated alert loop, output dedup and ranking, and the state update.
 * Missing JSON fields are read as 0 (numbers) or "" (strings).
 */
module DexPush {
  import opened Wrappers
  import Seqs

  // ---------------------------------------------------------------- pairs

  datatype Pair = Pair(
    chainId: string,
    pairAddress: string,
    baseAddress: string,
    url: string,
    liquidityUsd: Option<real>,
    volumeM5: Option<real>,
    volumeH1: Option<real>,
    buysM5: Option<real>,
    sellsM5: Option<real>,
    fdv: Option<real>)

  /** `x ?? 0` */
  function OrZero(o: Option<real>): real {
    if o.Some? then o.value else 0.0
  }

  function Liq(p: Pair): real { OrZero(p.liquidityUsd) }
  function VolH1(p: Pair): real { OrZero(p.volumeH1) }

  /** The order induced by the comparator of `pickBestPair`: higher liquidity first, then higher 1h volume. */
  predicate PairBefore(a: Pair, b: Pair) {
    Liq(a) > Liq(b) || (Liq(a) == Liq(b) && VolH1(a) >= VolH1(b))
  }

  lemma PairBeforeIsTotalPreorder()
    ensures Seqs.TotalPreorder(PairBefore)
  {
  }

  /**
   * `pickBestPair(pairs, chainId)`: `pairs` is None when the response has no
   * array.  Sorts the pairs on the chain with the comparator and takes the head.
   */
  function PickBestPair(pairs: Option<seq<Pair>>, chainId: string): (r: Option<Pair>)
    ensures r.None? <==> (pairs.None? || forall p :: p in pairs.value ==> p.chainId != chainId)
    ensures r.Some? ==>
      && r.value in pairs.value
      && r.value.chainId == chainId
      && forall p :: p in pairs.value && p.chainId == chainId ==>
           Liq(p) <= Liq(r.value) && (Liq(p) == Liq(r.value) ==> VolH1(p) <= VolH1(r.value))
  {
    if pairs.None? || |pairs.value| == 0 then None
    else
      var chainPairs := Seqs.Filter(pairs.value, (p: Pair) => p.chainId == chainId);
      if |chainPairs| == 0 then None
      else
        PairBeforeIsTotalPreorder();
        Seqs.SortByHeadIsLeast(chainPairs, PairBefore);
        Some(Seqs.SortBy(chainPairs, PairBefore)[0])
  }

  // -------------------------------------------------------------- scoring

  /** The tunable thresholds (`--min-liq`, `--min-vol-m5`, `--min-vol-h1`, `--min-txns-m5`, `--max-fdv-liq`). */
  datatype Config = Config(minLiqUsd: real, minVolM5: real, minVolH1: real, minTxnsM5: real, maxFdvLiq: real)

  const DefaultConfig := Config(30000.0, 5000.0, 30000.0, 30.0, 200.0)

  /** The minimums are divisors of the sub-scores. */
  predicate ValidConfig(c: Config) {
    c.minLiqUsd > 0.0 && c.minVolM5 > 0.0 && c.minVolH1 > 0.0 && c.minTxnsM5 > 0.0
  }

  /** The score an alert needs. */
  const AlertThreshold := 60
  const FdvPenalty := 15
  const BoostPenalty := 5

  /** `fdv / liq`, which is Infinity when `liq <= 0`. */
  datatype Ratio = Finite(value: real) | Infinite

  datatype Metrics = Metrics(liq: real, vol5: real, vol1: real, tx5: real, fdv: real, fdvL: Ratio)

  /** The reason codes, in the order scorePair pushes them. */
  datatype Reason = LiqBelow | Vol5Below | Vol1Below | Tx5Below | FdvLiqAbove | Boosted

  function Rank(r: Reason): nat {
    match r
    case LiqBelow => 0
    case Vol5Below => 1
    case Vol1Below => 2
    case Tx5Below => 3
    case FdvLiqAbove => 4
    case Boosted => 5
  }

  /** The four hard gates; the other two reasons never affect `pass`. */
  predicate IsGate(r: Reason) { Rank(r) < 4 }

  datatype Scored = Scored(pass: bool, score: int, reasons: seq<Reason>, metrics: Metrics)

  function MetricsOf(p: Pair): (m: Metrics)
    ensures m.fdvL.Finite? <==> m.liq > 0.0
  {
    var liq := OrZero(p.liquidityUsd);
    var fdv := OrZero(p.fdv);
    Metrics(liq, OrZero(p.volumeM5), OrZero(p.volumeH1), OrZero(p.buysM5) + OrZero(p.sellsM5), fdv,
            if liq > 0.0 then Finite(fdv / liq) else Infinite)
  }

  /** `Number.isFinite(fdvL) && fdvL > MAX_FDV_L` */
  predicate FdvFlag(c: Config, m: Metrics) {
    m.fdvL.Finite? && m.fdvL.value > c.maxFdvLiq
  }

  function MinReal(a: real, b: real): real { if a <= b then a else b }

  /** The pre-penalty score: three capped sub-scores. */
  function RawScore(c: Config, m: Metrics): (r: real)
    requires ValidConfig(c)
    ensures r <= 95.0
  {
    MinReal(40.0, (m.liq / c.minLiqUsd) * 20.0)
      + MinReal(35.0, (m.vol1 / c.minVolH1) * 20.0 + (m.vol5 / c.minVolM5) * 10.0)
      + MinReal(20.0, (m.tx5 / c.minTxnsM5) * 10.0)
  }

  /** `Math.round`: the nearest integer, halves rounded up. */
  function Round(x: real): int {
    (x + 0.5).Floor
  }

  /** `Math.max(0, Math.min(100, v))` */
  function Clamp(v: int): (r: int)
    ensures 0 <= r <= 100
  {
    if v < 0 then 0 else if v > 100 then 100 else v
  }

  function StrictlyRanked(rs: seq<Reason>): bool {
    forall i, j :: 0 <= i < j < |rs| ==> Rank(rs[i]) < Rank(rs[j])
  }

  /** Every reason in `rs` ranks below `k`. */
  predicate RankedBelow(rs: seq<Reason>, k: nat) {
    forall x :: x in rs ==> Rank(x) < k
  }

  /** `if (b) reasons.push(r)`. */
  function Push(rs: seq<Reason>, b: bool, r: Reason): seq<Reason> {
    if b then rs + [r] else rs
  }

  /** Pushing a reason that ranks above all the earlier ones keeps the ranks increasing. */
  lemma PushRanked(rs: seq<Reason>, b: bool, r: Reason)
    requires StrictlyRanked(rs) && RankedBelow(rs, Rank(r))
    ensures StrictlyRanked(Push(rs, b, r)) && RankedBelow(Push(rs, b, r), Rank(r) + 1)
  {
  }

  /** The condition under which scorePair pushes reason `r`. */
  predicate Fires(c: Config, m: Metrics, boosted: bool, r: Reason) {
    match r
    case LiqBelow => m.liq < c.minLiqUsd
    case Vol5Below => m.vol5 < c.minVolM5
    case Vol1Below => m.vol1 < c.minVolH1
    case Tx5Below => m.tx5 < c.minTxnsM5
    case FdvLiqAbove => FdvFlag(c, m)
    case Boosted => boosted
  }

  /** The reasons scorePair pushes, in its order. */
  function ReasonsFor(c: Config, m: Metrics, boosted: bool): seq<Reason> {
    var a := Push([], m.liq < c.minLiqUsd, LiqBelow);
    var b := Push(a, m.vol5 < c.minVolM5, Vol5Below);
    var d := Push(b, m.vol1 < c.minVolH1, Vol1Below);
    var e := Push(d, m.tx5 < c.minTxnsM5, Tx5Below);
    var f := Push(e, FdvFlag(c, m), FdvLiqAbove);
    Push(f, boosted, Boosted)
  }

  /** A reason is pushed exactly when its condition holds. */
  lemma ReasonsForMembers(c: Config, m: Metrics, boosted: bool, r: Reason)
    ensures r in ReasonsFor(c, m, boosted) <==> Fires(c, m, boosted, r)
  {
    var a := Push([], m.liq < c.minLiqUsd, LiqBelow);
    var b := Push(a, m.vol5 < c.minVolM5, Vol5Below);
    var d := Push(b, m.vol1 < c.minVolH1, Vol1Below);
    var e := Push(d, m.tx5 < c.minTxnsM5, Tx5Below);
    var f := Push(e, FdvFlag(c, m), FdvLiqAbove);
    assert r in f <==> r != Boosted && Fires(c, m, boosted, r);
  }

  /** The reasons come out in increasing rank, so each appears at most once. */
  lemma ReasonsForRanked(c: Config, m: Metrics, boosted: bool)
    ensures StrictlyRanked(ReasonsFor(c, m, boosted))
  {
    var a := Push([], m.liq < c.minLiqUsd, LiqBelow);
    var b := Push(a, m.vol5 < c.minVolM5, Vol5Below);
    var d := Push(b, m.vol1 < c.minVolH1, Vol1Below);
    var e := Push(d, m.tx5 < c.minTxnsM5, Tx5Below);
    var f := Push(e, FdvFlag(c, m), FdvLiqAbove);
    PushRanked([], m.liq < c.minLiqUsd, LiqBelow);
    PushRanked(a, m.vol5 < c.minVolM5, Vol5Below);
    PushRanked(b, m.vol1 < c.minVolH1, Vol1Below);
    PushRanked(d, m.tx5 < c.minTxnsM5, Tx5Below);
    PushRanked(e, FdvFlag(c, m), FdvLiqAbove);
    PushRanked(f, boosted, Boosted);
  }

  /** `score -= 15` for the ratio flag and `score -= 5` for a boost. */
  function Penalty(c: Config, m: Metrics, boosted: bool): int {
    (if FdvFlag(c, m) then FdvPenalty else 0) + (if boosted then BoostPenalty else 0)
  }

  /** `scorePair(p, boosted)`: the score after both penalties, rounded and clamped. */
  function ScorePair(c: Config, p: Pair, boosted: bool): (r: Scored)
    requires ValidConfig(c)
    ensures r.metrics == MetricsOf(p)
    ensures 0 <= r.score <= 100
    ensures r.reasons == ReasonsFor(c, r.metrics, boosted)
    ensures !r.pass <==> exists g :: g in r.reasons && IsGate(g)
  {
    var m := MetricsOf(p);
    var pass := m.liq >= c.minLiqUsd && m.vol5 >= c.minVolM5 && m.vol1 >= c.minVolH1 && m.tx5 >= c.minTxnsM5;
    var reasons := ReasonsFor(c, m, boosted);
    ReasonsForMembers(c, m, boosted, LiqBelow);
    ReasonsForMembers(c, m, boosted, Vol5Below);
    ReasonsForMembers(c, m, boosted, Vol1Below);
    ReasonsForMembers(c, m, boosted, Tx5Below);
    assert !pass ==> (LiqBelow in reasons || Vol5Below in reasons || Vol1Below in reasons || Tx5Below in reasons);
    Scored(pass, Clamp(Round(RawScore(c, m) - Penalty(c, m, boosted) as real)), reasons, m)
  }

  /** The reasons pushed for a pair: one per failed gate, the ratio flag and the boost, each at most once and in push order. */
  lemma ReasonsOfPair(c: Config, p: Pair, boosted: bool)
    ensures var m := MetricsOf(p); LiqBelow in ReasonsFor(c, m, boosted) <==> m.liq < c.minLiqUsd
    ensures var m := MetricsOf(p); Vol5Below in ReasonsFor(c, m, boosted) <==> m.vol5 < c.minVolM5
    ensures var m := MetricsOf(p); Vol1Below in ReasonsFor(c, m, boosted) <==> m.vol1 < c.minVolH1
    ensures var m := MetricsOf(p); Tx5Below in ReasonsFor(c, m, boosted) <==> m.tx5 < c.minTxnsM5
    ensures var m := MetricsOf(p); FdvLiqAbove in ReasonsFor(c, m, boosted) <==> m.liq > 0.0 && m.fdv / m.liq > c.maxFdvLiq
    ensures Boosted in ReasonsFor(c, MetricsOf(p), boosted) <==> boosted
    ensures StrictlyRanked(ReasonsFor(c, MetricsOf(p), boosted))
  {
    var m := MetricsOf(p);
    ReasonsForRanked(c, m, boosted);
    ReasonsForMembers(c, m, boosted, LiqBelow);
    ReasonsForMembers(c, m, boosted, Vol5Below);
    ReasonsForMembers(c, m, boosted, Vol1Below);
    ReasonsForMembers(c, m, boosted, Tx5Below);
    ReasonsForMembers(c, m, boosted, FdvLiqAbove);
    ReasonsForMembers(c, m, boosted, Boosted);
  }

  lemma RoundShift(x: real, k: int)
    ensures Round(x - k as real) == Round(x) - k
  {
    var f := Round(x);
    assert f as real <= x + 0.5 < f as real + 1.0;
    assert (f - k) as real <= x - k as real + 0.5 < (f - k) as real + 1.0;
  }

  lemma RoundMonotone(x: real, y: real)
    requires x <= y
    ensures Round(x) <= Round(y)
  {
  }

  /**
   * The two penalties are flat integer subtractions that stack: the score
   * is the rounded raw score minus 15 for the FDV/liquidity flag and minus 5
   * for a boost, floored at 0 (the cap at 100 never applies, the raw score
   * being at most 95).
   */
  lemma ScoreIsRoundedRawMinusPenalties(c: Config, p: Pair, boosted: bool)
    requires ValidConfig(c)
    ensures var m := MetricsOf(p);
      ScorePair(c, p, boosted).score
        == Seqs.Max(0, Round(RawScore(c, m)) - (if FdvFlag(c, m) then FdvPenalty else 0) - (if boosted then BoostPenalty else 0))
  {
    var m := MetricsOf(p);
    var raw := RawScore(c, m);
    var k := Penalty(c, m, boosted);
    assert ScorePair(c, p, boosted).score == Clamp(Round(raw - k as real));
    RoundShift(raw, k);
    assert Round(raw) <= 95 by {
      RoundMonotone(raw, 95.0);
      assert Round(95.0) == 95;
    }
  }

  /** Being boosted adds the `boosted` reason and costs 5 points (down to 0) and nothing else. */
  lemma {:induction false} BoostOnlyPenalizes(c: Config, p: Pair)
    requires ValidConfig(c)
    ensures ScorePair(c, p, true).pass == ScorePair(c, p, false).pass
    ensures ScorePair(c, p, true).reasons == ScorePair(c, p, false).reasons + [Boosted]
    ensures ScorePair(c, p, true).score == Seqs.Max(0, ScorePair(c, p, false).score - BoostPenalty)
  {
    ScoreIsRoundedRawMinusPenalties(c, p, true);
    ScoreIsRoundedRawMinusPenalties(c, p, false);
  }

  lemma DivMonotone(x: real, y: real, d: real)
    requires x <= y && d > 0.0
    ensures x / d <= y / d
  {
    assert y / d - x / d == (y - x) / d;
  }

  lemma RawScoreMonotone(c: Config, m: Metrics, n: Metrics)
    requires ValidConfig(c)
    requires m.liq <= n.liq && m.vol5 <= n.vol5 && m.vol1 <= n.vol1 && m.tx5 <= n.tx5
    ensures RawScore(c, m) <= RawScore(c, n)
  {
    DivMonotone(m.liq, n.liq, c.minLiqUsd);
    DivMonotone(m.vol5, n.vol5, c.minVolM5);
    DivMonotone(m.vol1, n.vol1, c.minVolH1);
    DivMonotone(m.tx5, n.tx5, c.minTxnsM5);
  }

  lemma DivAbove(a: real, d: real, bound: real)
    requires d > 0.0 && a > bound * d
    ensures a / d > bound
  {
    assert (a / d - bound) * d == a - bound * d;
  }

  /** With a non-negative ratio limit, more liquidity (from a positive amount) or less FDV never adds the flag. */
  lemma FdvFlagAntitone(c: Config, m: Metrics, n: Metrics)
    requires c.maxFdvLiq >= 0.0
    requires m.fdvL == (if m.liq > 0.0 then Finite(m.fdv / m.liq) else Infinite)
    requires n.fdvL == (if n.liq > 0.0 then Finite(n.fdv / n.liq) else Infinite)
    requires m.liq == n.liq || 0.0 < m.liq <= n.liq
    requires n.fdv <= m.fdv
    ensures FdvFlag(c, n) ==> FdvFlag(c, m)
  {
    if FdvFlag(c, n) {
      assert n.fdv / n.liq > c.maxFdvLiq;
      assert n.fdv > c.maxFdvLiq * n.liq by {
        assert n.fdv == (n.fdv / n.liq) * n.liq;
        assert (n.fdv / n.liq) * n.liq > c.maxFdvLiq * n.liq;
      }
      assert m.fdv > c.maxFdvLiq * m.liq by {
        assert c.maxFdvLiq * m.liq <= c.maxFdvLiq * n.liq;
      }
      DivAbove(m.fdv, m.liq, c.maxFdvLiq);
    }
  }

  /**
   * The score does not decrease when volumes and transactions grow, FDV
   * shrinks, and liquidity grows from a positive value, holding the rest fixed.
   */
  lemma ScoreMonotone(c: Config, p: Pair, q: Pair, boosted: bool)
    requires ValidConfig(c) && c.maxFdvLiq >= 0.0
    requires var mp, mq := MetricsOf(p), MetricsOf(q);
      && mp.vol5 <= mq.vol5 && mp.vol1 <= mq.vol1 && mp.tx5 <= mq.tx5 && mq.fdv <= mp.fdv
      && (mp.liq == mq.liq || 0.0 < mp.liq <= mq.liq)
    ensures ScorePair(c, p, boosted).score <= ScorePair(c, q, boosted).score
  {
    var mp, mq := MetricsOf(p), MetricsOf(q);
    RawScoreMonotone(c, mp, mq);
    RoundMonotone(RawScore(c, mp), RawScore(c, mq));
    FdvFlagAntitone(c, mp, mq);
    ScoreIsRoundedRawMinusPenalties(c, p, boosted);
    ScoreIsRoundedRawMinusPenalties(c, q, boosted);
  }

  /**
   * Monotonicity in liquidity fails at zero: zero liquidity makes the ratio
   * Infinity (no flag, no penalty), while a tiny positive liquidity makes it
   * huge and costs 15 points.
   */
  lemma ZeroLiquidityEscapesFdvPenalty()
    ensures var p := Pair("solana", "P", "T", "", Some(0.0), Some(8000.0), Some(30000.0), Some(40.0), Some(20.0), Some(1000000.0));
      var q := p.(liquidityUsd := Some(1.0));
      && FdvLiqAbove !in ScorePair(DefaultConfig, p, false).reasons
      && ScorePair(DefaultConfig, p, false).score == 55
      && ScorePair(DefaultConfig, q, false).score == 40
  {
    var p := Pair("solana", "P", "T", "", Some(0.0), Some(8000.0), Some(30000.0), Some(40.0), Some(20.0), Some(1000000.0));
    var q := p.(liquidityUsd := Some(1.0));
    ScoreIsRoundedRawMinusPenalties(DefaultConfig, p, false);
    ScoreIsRoundedRawMinusPenalties(DefaultConfig, q, false);
    assert RawScore(DefaultConfig, MetricsOf(p)) == 55.0;
    assert FdvFlag(DefaultConfig, MetricsOf(q));
    assert RawScore(DefaultConfig, MetricsOf(q)) == 55.0 + 1.0 / 1500.0;
    assert Round(55.0 + 1.0 / 1500.0) == 55;
  }

  /** A healthy pair (liq 50k, vol5 8k, vol1 40k, 50 txns, FDV/L 40) passes with score 85. */
  lemma HealthyPairAlerts()
    ensures var p := Pair("solana", "P", "T", "", Some(50000.0), Some(8000.0), Some(40000.0), Some(30.0), Some(20.0), Some(2000000.0));
      var s := ScorePair(DefaultConfig, p, false);
      s.pass && s.score == 85 && s.reasons == []
  {
    var p := Pair("solana", "P", "T", "", Some(50000.0), Some(8000.0), Some(40000.0), Some(30.0), Some(20.0), Some(2000000.0));
    ScoreIsRoundedRawMinusPenalties(DefaultConfig, p, false);
    assert RawScore(DefaultConfig, MetricsOf(p)) == 100.0 / 3.0 + 35.0 + 50.0 / 3.0;
    assert Round(85.0) == 85;
  }

  /**
   * `gmgnUrl(chainId, tokenAddress)`: a GMGN link for Solana and Base
   * tokens, tagged with the tracking code; none without a token address or
   * on another chain.
   */
  function GmgnUrl(track: string, chainId: string, tokenAddress: string): (r: Option<string>)
    ensures r.Some? <==> tokenAddress != "" && (chainId == "solana" || chainId == "base")
    ensures r.Some? ==> |r.value| > |tokenAddress| + |track| + 1
    ensures r.Some? ==> r.value[|r.value| - |tokenAddress|..] == tokenAddress
    ensures r.Some? ==> r.value[|r.value| - |tokenAddress| - |track| - 1..|r.value| - |tokenAddress|] == track + "_"
    ensures r.Some? && chainId == "solana" ==> "https://gmgn.ai/sol/token/" <= r.value
    ensures r.Some? && chainId == "base" ==> "https://gmgn.ai/base/token/" <= r.value
  {
    if tokenAddress == "" then None
    else if chainId == "solana" then Some("https://gmgn.ai/sol/token/" + track + "_" + tokenAddress)
    else if chainId == "base" then Some("https://gmgn.ai/base/token/" + track + "_" + tokenAddress)
    else None
  }
}
