/**
 * The Solana whale wallet monitor (tools/smart-money/sol_whale_monitor.js):
 * round-robin RPC endpoint selection, the retry schedule of an RPC call,
 * the per-signature balance-change filter, checkpointing, and the 24-hour
 * per-wallet summary.
 */
module WhaleMonitor {
  import opened Wrappers
  import opened JsNumbers
  import Seqs

  // ------------------------------------------------------------ numbers

  /** `Math.max(5, Math.min(200, Number(arg)))`. */
  function ClampLimit(x: JsNumber): (r: JsNumber)
    ensures x.NaN? <==> r.NaN?
    ensures !x.NaN? ==> r.Num? && 5.0 <= r.r <= 200.0
    ensures x.Num? && 5.0 <= x.r <= 200.0 ==> r == x
  {
    JsMax(5.0, JsMin(200.0, x))
  }

  function Abs(x: int): nat { if x < 0 then -x else x }

  /** `x % n` is the `r < n` for which `x == q * n + r`. */
  lemma ModUnique(x: int, n: int, q: int, r: int)
    requires n > 0 && 0 <= r < n && x == q * n + r
    ensures x % n == r && x / n == q
  {
    var q0, r0 := x / n, x % n;
    assert (q0 - q) * n == r - r0;
    MulBounded(q0 - q, n, r - r0);
  }

  /** A multiple of `n` strictly between `-n` and `n` is 0. */
  lemma MulBounded(d: int, n: int, e: int)
    requires n > 0 && d * n == e && -n < e < n
    ensures d == 0
  {
  }

  lemma ModNext(p: nat, n: nat)
    requires n > 0
    ensures (p % n + 1) % n == (p + 1) % n
  {
    var q, r := p / n, p % n;
    if r + 1 < n {
      ModUnique(p + 1, n, q, r + 1);
      ModUnique(r + 1, n, 0, r + 1);
    } else {
      assert p + 1 == (q + 1) * n + 0;
      ModUnique(p + 1, n, q + 1, 0);
      ModUnique(r + 1, n, 1, 0);
    }
  }

  function Pow2(n: nat): (r: nat)
    ensures r >= 1
  {
    if n == 0 then 1 else 2 * Pow2(n - 1)
  }

  // ------------------------------------------------------- RPC endpoints

  /**
   * `pickRpcUrl` over the configured endpoints: `rpcIdx` starts at 0 and
   * advances modulo the number of endpoints (at least 1).  `picks` counts
   * the calls so far.
   */
  class RpcSelector {
    const urls: seq<string>
    var rpcIdx: int
    ghost var picks: nat

    ghost predicate Valid()
      reads this
    {
      rpcIdx == picks % Seqs.Max(1, |urls|)
    }

    /** The endpoint of the `k`-th call (counting from 0); none when nothing is configured. */
    function UrlFor(k: nat): (r: Option<string>)
      ensures urls == [] <==> r.None?
      ensures r.Some? ==> r.value in urls
    {
      if urls == [] then None else Some(urls[k % |urls|])
    }

    constructor(urls: seq<string>)
      ensures this.urls == urls && picks == 0 && Valid()
    {
      this.urls := urls;
      rpcIdx := 0;
      picks := 0;
    }

    /** `RPC_URLS[Math.min(rpcIdx, n - 1)] || RPC_URLS[0]`, then the index moves on. */
    method Pick() returns (url: Option<string>)
      requires Valid()
      modifies this
      ensures Valid() && picks == old(picks) + 1
      ensures url == UrlFor(old(picks))
    {
      var n := |urls|;
      if n == 0 {
        url := None;
      } else {
        url := Some(urls[Seqs.Min(rpcIdx, n - 1)]);
      }
      ModNext(picks, Seqs.Max(1, n));
      rpcIdx := (rpcIdx + 1) % Seqs.Max(1, n);
      picks := picks + 1;
    }
  }

  /** Successive picks cycle through the endpoints: `k` and `k + n` pick the same one. */
  lemma RoundRobin(s: RpcSelector, k: nat)
    requires s.urls != []
    ensures s.UrlFor(k) == Some(s.urls[k % |s.urls|])
    ensures s.UrlFor(k + |s.urls|) == s.UrlFor(k)
    ensures k < |s.urls| ==> s.UrlFor(k) == Some(s.urls[k])
  {
    var n := |s.urls|;
    assert k == (k / n) * n + k % n;
    ModUnique(k + n, n, k / n + 1, k % n);
    if k < n {
      ModUnique(k, n, 0, k);
    }
  }

  // ----------------------------------------------------------- RPC retry

  /** What one HTTP request of `rpc` got back. */
  datatype Reply<T> = HttpStatus(status: int) | ErrorBody(error: string) | ResultBody(result: T)

  /** Why `rpc` threw. */
  datatype RpcFailure = HttpFailure(status: int) | RpcErrorReply(error: string)

  const MaxRetries: nat := 6

  /** The wait before retry `attempt + 1`. */
  function Backoff(attempt: nat): (r: nat)
    ensures r <= 20_000
  {
    Seqs.Min(20_000, 400 * Pow2(attempt))
  }

  predicate Transient(status: int) {
    status == 429 || status >= 500
  }

  /** A reply is retried when it is a transient HTTP status and retries remain. */
  predicate Retried<T>(reply: Reply<T>, attempt: nat) {
    reply.HttpStatus? && Transient(reply.status) && attempt < MaxRetries
  }

  /** What a final reply makes of the call: its result, its error body, or its HTTP status. */
  function Settle<T>(reply: Reply<T>): (r: Result<T, RpcFailure>)
    ensures r.Ok? <==> reply.ResultBody?
  {
    match reply
    case ResultBody(x) => Ok(x)
    case ErrorBody(e) => Err(RpcErrorReply(e))
    case HttpStatus(st) => Err(HttpFailure(st))
  }

  /**
   * The reply to request `j` of a call whose first request was the `k`-th
   * pick at attempt `attempt`: request `j` goes to endpoint `route(k + j)`
   * and gets `net(route(k + j), attempt + j)`.
   */
  function ReplyAt<T>(route: nat -> Option<string>, k: nat, net: (Option<string>, nat) -> Reply<T>, attempt: nat, j: nat): Reply<T> {
    net(route(k + j), attempt + j)
  }

  /** How many requests of the call are retried before the first reply that is not. */
  function Retries<T>(route: nat -> Option<string>, k: nat, net: (Option<string>, nat) -> Reply<T>, attempt: nat): nat
    decreases MaxRetries - Seqs.Min(attempt, MaxRetries)
  {
    if Retried(net(route(k), attempt), attempt) then 1 + Retries(route, k + 1, net, attempt + 1) else 0
  }

  /**
   * The outcome of `rpc(method, params, attempt)`: the result or failure
   * settled by the reply after the retries, and the waits slept before
   * them, `min(20000, 400 * 2^(attempt + j))` before retry `j`.
   */
  function RpcOutcome<T>(route: nat -> Option<string>, k: nat, net: (Option<string>, nat) -> Reply<T>, attempt: nat): (o: (Result<T, RpcFailure>, seq<nat>))
    ensures o.0.Ok? <==> ReplyAt(route, k, net, attempt, |o.1|).ResultBody?
    ensures !Retried(ReplyAt(route, k, net, attempt, |o.1|), attempt + |o.1|)
    ensures attempt <= MaxRetries ==> attempt + |o.1| <= MaxRetries
  {
    var n := Retries(route, k, net, attempt);
    RetryStops(route, k, net, attempt);
    assert attempt <= MaxRetries ==> n <= MaxRetries - attempt by {
      if attempt <= MaxRetries { RetryCount(route, k, net, attempt); }
    }
    (Settle(ReplyAt(route, k, net, attempt, n)), Waits(attempt, n))
  }

  /** The waits before `n` retries from attempt `attempt`. */
  function Waits(attempt: nat, n: nat): seq<nat> {
    seq<nat>(n, j requires 0 <= j => Backoff(attempt + j))
  }

  /** `rpc`: pick an endpoint, send, and on a transient HTTP failure sleep and retry. */
  method Rpc<T>(s: RpcSelector, net: (Option<string>, nat) -> Reply<T>, attempt: nat)
    returns (r: Result<T, RpcFailure>, waits: seq<nat>)
    requires s.Valid()
    modifies s
    ensures s.Valid()
    ensures (r, waits) == RpcOutcome(s.UrlFor, old(s.picks), net, attempt)
    ensures s.picks == old(s.picks) + |waits| + 1
    decreases MaxRetries - Seqs.Min(attempt, MaxRetries)
  {
    ghost var k := s.picks;
    var url := s.Pick();
    var reply := net(url, attempt);
    RpcOutcomeStep(s.UrlFor, k, net, attempt);
    match reply
    case HttpStatus(st) =>
      if Transient(st) && attempt < MaxRetries {
        var wait := Backoff(attempt);
        var rest;
        r, rest := Rpc(s, net, attempt + 1);
        waits := [wait] + rest;
      } else {
        r, waits := Err(HttpFailure(st)), [];
      }
    case ErrorBody(e) =>
      r, waits := Err(RpcErrorReply(e)), [];
    case ResultBody(x) =>
      r, waits := Ok(x), [];
  }

  /** A call is its first request followed, when that reply is retried, by the call from the next pick and attempt. */
  lemma RpcOutcomeStep<T>(route: nat -> Option<string>, k: nat, net: (Option<string>, nat) -> Reply<T>, attempt: nat)
    ensures var reply := net(route(k), attempt);
      RpcOutcome(route, k, net, attempt) ==
        if Retried(reply, attempt) then
          var rest := RpcOutcome(route, k + 1, net, attempt + 1);
          (rest.0, [Backoff(attempt)] + rest.1)
        else (Settle(reply), [])
  {
    var reply := net(route(k), attempt);
    if Retried(reply, attempt) {
      var n := Retries(route, k + 1, net, attempt + 1);
      assert ReplyAt(route, k, net, attempt, n + 1) == ReplyAt(route, k + 1, net, attempt + 1, n);
      var w, w' := Waits(attempt, n + 1), Waits(attempt + 1, n);
      assert w == [Backoff(attempt)] + w' by {
        forall j | 0 < j <= n ensures w[j] == w'[j - 1] { }
      }
    } else {
      assert ReplyAt(route, k, net, attempt, 0) == reply;
      assert Waits(attempt, 0) == [];
    }
  }

  /** At most `6 - attempt` retries: a call makes at most seven requests. */
  lemma {:induction false} RetryCount<T>(route: nat -> Option<string>, k: nat, net: (Option<string>, nat) -> Reply<T>, attempt: nat)
    requires attempt <= MaxRetries
    ensures Retries(route, k, net, attempt) <= MaxRetries - attempt
    decreases MaxRetries - attempt
  {
    if Retried(net(route(k), attempt), attempt) {
      RetryCount(route, k + 1, net, attempt + 1);
    }
  }

  /** Every request but the last got a transient HTTP status while retries remained, which is why it was retried. */
  lemma {:induction false} RetryReasons<T>(route: nat -> Option<string>, k: nat, net: (Option<string>, nat) -> Reply<T>, attempt: nat)
    ensures forall j :: 0 <= j < Retries(route, k, net, attempt) ==> Retried(ReplyAt(route, k, net, attempt, j), attempt + j)
    decreases MaxRetries - Seqs.Min(attempt, MaxRetries)
  {
    var reply := net(route(k), attempt);
    if Retried(reply, attempt) {
      var n := Retries(route, k + 1, net, attempt + 1);
      RetryReasons(route, k + 1, net, attempt + 1);
      forall j | 0 <= j < n + 1
        ensures Retried(ReplyAt(route, k, net, attempt, j), attempt + j)
      {
        if j == 0 {
          assert ReplyAt(route, k, net, attempt, 0) == reply;
        } else {
          assert ReplyAt(route, k, net, attempt, j) == ReplyAt(route, k + 1, net, attempt + 1, j - 1);
        }
      }
    }
  }

  /** The last reply is not one that is retried: it is permanent, or the retries are used up. */
  lemma {:induction false} RetryStops<T>(route: nat -> Option<string>, k: nat, net: (Option<string>, nat) -> Reply<T>, attempt: nat)
    ensures var n := Retries(route, k, net, attempt);
      !Retried(ReplyAt(route, k, net, attempt, n), attempt + n)
    decreases MaxRetries - Seqs.Min(attempt, MaxRetries)
  {
    if Retried(net(route(k), attempt), attempt) {
      RetryStops(route, k + 1, net, attempt + 1);
      var n := Retries(route, k + 1, net, attempt + 1);
      assert ReplyAt(route, k, net, attempt, n + 1) == ReplyAt(route, k + 1, net, attempt + 1, n);
    } else {
      assert ReplyAt(route, k, net, attempt, 0) == net(route(k), attempt);
    }
  }

  /** Below the cap the wait doubles; the six waits of a failing call add up to 25.2 seconds. */
  lemma BackoffValues()
    ensures Backoff(0) == 400 && Backoff(1) == 800 && Backoff(2) == 1600
    ensures Backoff(3) == 3200 && Backoff(4) == 6400 && Backoff(5) == 12800
    ensures Backoff(0) + Backoff(1) + Backoff(2) + Backoff(3) + Backoff(4) + Backoff(5) == 25_200
  {
    assert Pow2(1) == 2 && Pow2(2) == 4 && Pow2(3) == 8 && Pow2(4) == 16 && Pow2(5) == 32;
  }

  // ------------------------------------------------------------- events

  /** An entry of wallets.json; "" stands for a missing or empty field. */
  datatype Wallet = Wallet(address: string, name: string)

  /** The part of a `getTransaction` result the monitor reads; a balance that is not a number is `None`. */
  datatype Tx = Tx(slot: Option<int>, blockTime: Option<int>, accountKeys: seq<string>,
                   preBalances: seq<Option<int>>, postBalances: seq<Option<int>>)

  datatype Direction = In | Out

  datatype Event = Event(signature: string, slot: Option<int>, blockTimeMs: Option<int>, observedAt: int,
                         walletAddress: string, walletName: Option<string>, deltaLamports: int,
                         direction: Direction, thresholdSol: JsNumber, solscan: string, explorer: string)

  const LamportsPerSol: real := 1_000_000_000.0

  function DeltaSol(deltaLamports: int): real {
    deltaLamports as real / LamportsPerSol
  }

  /** `keys.findIndex(k => k === address)`. */
  function FindKey(keys: seq<string>, address: string): (r: int)
    ensures -1 <= r < |keys|
    ensures r >= 0 ==> keys[r] == address && forall j :: 0 <= j < r ==> keys[j] != address
    ensures r == -1 <==> address !in keys
  {
    if keys == [] then -1
    else if keys[0] == address then 0
    else
      var r := FindKey(keys[1..], address);
      if r == -1 then -1 else r + 1
  }

  function BalanceAt(b: seq<Option<int>>, i: nat): Option<int> {
    if i < |b| then b[i] else None
  }

  /**
   * The event for one transaction of a watched wallet: none unless the
   * wallet is among the account keys with numeric balances before and after,
   * and none when `|delta| / 1e9 < thresholdSol`.
   */
  function EventOf(w: Wallet, signature: string, tx: Tx, thresholdSol: JsNumber, now: int): (r: Option<Event>)
    ensures r.Some? ==> var idx := FindKey(tx.accountKeys, w.address);
      && idx >= 0
      && BalanceAt(tx.preBalances, idx).Some? && BalanceAt(tx.postBalances, idx).Some?
      && r.value.deltaLamports == BalanceAt(tx.postBalances, idx).value - BalanceAt(tx.preBalances, idx).value
    ensures r.Some? ==> !LessThan(Abs(r.value.deltaLamports) as real / LamportsPerSol, thresholdSol)
    ensures r.Some? ==> (r.value.direction == In <==> r.value.deltaLamports > 0)
    ensures r.Some? ==> r.value.signature == signature && r.value.walletAddress == w.address && r.value.observedAt == now
    ensures r.None? && FindKey(tx.accountKeys, w.address) >= 0 ==>
      var idx := FindKey(tx.accountKeys, w.address);
      BalanceAt(tx.preBalances, idx).None? || BalanceAt(tx.postBalances, idx).None?
      || LessThan(Abs(BalanceAt(tx.postBalances, idx).value - BalanceAt(tx.preBalances, idx).value) as real / LamportsPerSol, thresholdSol)
  {
    var idx := FindKey(tx.accountKeys, w.address);
    if idx < 0 then None
    else
      var pre := BalanceAt(tx.preBalances, idx);
      var post := BalanceAt(tx.postBalances, idx);
      if pre.None? || post.None? then None
      else
        var delta := post.value - pre.value;
        if LessThan(Abs(delta) as real / LamportsPerSol, thresholdSol) then None
        else
          Some(Event(signature, tx.slot,
                     if tx.blockTime.Some? && tx.blockTime.value != 0 then Some(tx.blockTime.value * 1000) else None,
                     now, w.address, if w.name != "" then Some(w.name) else None, delta,
                     if DeltaSol(delta) > 0.0 then In else Out, thresholdSol,
                     "https://solscan.io/tx/" + signature, "https://explorer.solana.com/tx/" + signature))
  }

  /** With a finite threshold, an event's lamport delta is at least the threshold in lamports. */
  lemma EventMeetsThreshold(w: Wallet, signature: string, tx: Tx, t: real, now: int)
    requires EventOf(w, signature, tx, Num(t), now).Some?
    ensures Abs(EventOf(w, signature, tx, Num(t), now).value.deltaLamports) as real >= t * LamportsPerSol
  {
    var e := EventOf(w, signature, tx, Num(t), now).value;
    var x := Abs(e.deltaLamports) as real;
    assert !(x / LamportsPerSol < t);
    assert x == (x / LamportsPerSol) * LamportsPerSol;
  }

  // ------------------------------------------------------ per-wallet batch

  /** What a `getTransaction` call for one signature came back with (`None`: no meta or transaction). */
  type TxLookup = string -> Result<Option<Tx>, RpcFailure>

  /**
   * The events appended while walking `ordered` (oldest first), and the
   * failure that stopped the walk, if any.  Empty signatures and missing
   * transactions are skipped.
   */
  function BatchRun(w: Wallet, ordered: seq<string>, txOf: TxLookup, thr: JsNumber, now: int): (r: (seq<Event>, Option<RpcFailure>))
    ensures |r.0| <= |ordered|
  {
    if ordered == [] then ([], None)
    else
      var init := BatchRun(w, ordered[..|ordered| - 1], txOf, thr, now);
      if init.1.Some? then init
      else match SigOutcomeOf(w, ordered[|ordered| - 1], txOf, thr, now)
        case Skipped => init
        case Emitted(e) => (init.0 + [e], None)
        case LookupFailed(err) => (init.0, Some(err))
  }

  /** What one signature of the walk does: nothing, append an event, or stop the run. */
  datatype SigOutcome = Skipped | Emitted(e: Event) | LookupFailed(error: RpcFailure)

  function SigOutcomeOf(w: Wallet, sig: string, txOf: TxLookup, thr: JsNumber, now: int): SigOutcome {
    if sig == "" then Skipped
    else match txOf(sig)
      case Err(err) => LookupFailed(err)
      case Ok(None) => Skipped
      case Ok(Some(tx)) =>
        var ev := EventOf(w, sig, tx, thr, now);
        if ev.Some? then Emitted(ev.value) else Skipped
  }

  /** The body of the walk for one signature: skip an empty one, look the transaction up, and build its event. */
  method VisitSignature(w: Wallet, signature: string, txOf: TxLookup, thr: JsNumber, now: int) returns (o: SigOutcome)
    ensures o == SigOutcomeOf(w, signature, txOf, thr, now)
  {
    if signature == "" {
      return Skipped;
    }
    var tx := txOf(signature);
    if tx.Err? {
      return LookupFailed(tx.error);
    }
    if tx.value.None? {
      return Skipped;
    }
    var ev := EventOf(w, signature, tx.value.value, thr, now);
    o := if ev.Some? then Emitted(ev.value) else Skipped;
  }

  /** The walk of `ordered[..i + 1]` is that of `ordered[..i]` followed by signature `i`. */
  lemma BatchRunStep(w: Wallet, ordered: seq<string>, i: nat, txOf: TxLookup, thr: JsNumber, now: int)
    requires i < |ordered| && BatchRun(w, ordered[..i], txOf, thr, now).1.None?
    ensures var init := BatchRun(w, ordered[..i], txOf, thr, now);
      BatchRun(w, ordered[..i + 1], txOf, thr, now) ==
        match SigOutcomeOf(w, ordered[i], txOf, thr, now)
        case Skipped => init
        case Emitted(e) => (init.0 + [e], None)
        case LookupFailed(err) => (init.0, Some(err))
  {
    assert ordered[..i + 1][..i] == ordered[..i];
  }

  function Reverse<T>(s: seq<T>): (r: seq<T>)
    ensures |r| == |s| && forall i :: 0 <= i < |s| ==> r[i] == s[|s| - 1 - i]
  {
    if s == [] then [] else Reverse(s[1..]) + [s[0]]
  }

  /** Every appended event is for this wallet and comes from one of the batch's signatures. */
  lemma {:induction false} BatchEventsFromBatch(w: Wallet, ordered: seq<string>, txOf: TxLookup, thr: JsNumber, now: int)
    ensures forall e :: e in BatchRun(w, ordered, txOf, thr, now).0 ==>
      e.walletAddress == w.address && e.signature in ordered && e.signature != ""
  {
    if ordered != [] {
      var p := ordered[..|ordered| - 1];
      BatchEventsFromBatch(w, p, txOf, thr, now);
      assert forall x :: x in p ==> x in ordered;
    }
  }

  // ------------------------------------------------------------- summary

  /** An event line of solana-events.jsonl as read back; "" is a missing address. */
  datatype Stored = Stored(blockTime: Option<int>, observedAt: Option<int>, address: string, name: Option<string>, deltaSol: real)

  /** A line of the events file: a parsed event, or a line `JSON.parse` rejects. */
  datatype Line = Parsed(e: Stored) | Malformed

  function StoredOf(e: Event): Stored {
    Stored(e.blockTimeMs, Some(e.observedAt), e.walletAddress, e.walletName, DeltaSol(e.deltaLamports))
  }

  function Truthy0(o: Option<int>): bool { o.Some? && o.value != 0 }

  /** `e.blockTime || e.observedAt || 0`. */
  function TimeOf(e: Stored): (t: int)
    ensures Truthy0(e.blockTime) ==> t == e.blockTime.value
    ensures !Truthy0(e.blockTime) && Truthy0(e.observedAt) ==> t == e.observedAt.value
    ensures !Truthy0(e.blockTime) && !Truthy0(e.observedAt) ==> t == 0
  {
    if Truthy0(e.blockTime) then e.blockTime.value else if Truthy0(e.observedAt) then e.observedAt.value else 0
  }

  const LookbackMs: int := 24 * 3600 * 1000
  const MaxLines: nat := 5000

  /** The parsed events among `lines` whose time is at least `sinceMs`, in file order. */
  function Recent(lines: seq<Line>, sinceMs: int): (r: seq<Stored>)
    ensures |r| <= |lines|
  {
    if lines == [] then []
    else
      var init := Recent(lines[..|lines| - 1], sinceMs);
      var l := lines[|lines| - 1];
      if l.Parsed? && TimeOf(l.e) >= sinceMs then init + [l.e] else init
  }

  /** The recent events are exactly the parsed lines at or after `sinceMs`; malformed lines are skipped. */
  lemma {:induction false} RecentMembers(lines: seq<Line>, sinceMs: int)
    ensures forall e :: e in Recent(lines, sinceMs) <==> Parsed(e) in lines && TimeOf(e) >= sinceMs
  {
    if lines != [] {
      var p, l := lines[..|lines| - 1], lines[|lines| - 1];
      RecentMembers(p, sinceMs);
      assert forall x :: x in lines <==> x in p || x == l;
    }
  }

  /** The summary's event selection: the last 5000 lines, then the 24-hour window. */
  method SelectRecent(lines: seq<Line>, now: int) returns (events: seq<Stored>)
    ensures events == Recent(Seqs.LastN(lines, MaxLines), now - LookbackMs)
  {
    var tail := if |lines| > MaxLines then lines[|lines| - MaxLines..] else lines;
    var sinceMs := now - LookbackMs;
    events := [];
    var i := 0;
    while i < |tail|
      invariant 0 <= i <= |tail|
      invariant events == Recent(tail[..i], sinceMs)
    {
      assert tail[..i + 1][..i] == tail[..i];
      var l := tail[i];
      if l.Parsed? && TimeOf(l.e) >= sinceMs {
        events := events + [l.e];
      }
      i := i + 1;
    }
    assert tail[..i] == tail;
  }

  datatype WalletStat = WalletStat(address: string, name: Option<string>, inSol: real, outSol: real, count: nat)

  /** `e.wallet?.address || 'unknown'`. */
  function KeyOf(e: Stored): string {
    if e.address != "" then e.address else "unknown"
  }

  function CountFor(es: seq<Stored>, k: string): nat {
    if es == [] then 0
    else CountFor(es[..|es| - 1], k) + (if KeyOf(es[|es| - 1]) == k then 1 else 0)
  }

  /** The sum of the positive deltas of wallet `k`. */
  function InFor(es: seq<Stored>, k: string): real {
    if es == [] then 0.0
    else
      var e := es[|es| - 1];
      InFor(es[..|es| - 1], k) + (if KeyOf(e) == k && e.deltaSol > 0.0 then e.deltaSol else 0.0)
  }

  /** The sum of `|delta|` over the other deltas of wallet `k`. */
  function OutFor(es: seq<Stored>, k: string): real {
    if es == [] then 0.0
    else
      var e := es[|es| - 1];
      OutFor(es[..|es| - 1], k) + (if KeyOf(e) == k && !(e.deltaSol > 0.0) then -e.deltaSol else 0.0)
  }

  /** The wallet keys in order of first appearance. */
  function KeysInOrder(es: seq<Stored>): (r: seq<string>)
    ensures |r| <= |es|
  {
    if es == [] then []
    else
      var init := KeysInOrder(es[..|es| - 1]);
      var e := es[|es| - 1];
      if KeyOf(e) in init then init else init + [KeyOf(e)]
  }

  /** Every key is that of some event, and every event's key is listed. */
  lemma {:induction false} KeysInOrderMembers(es: seq<Stored>)
    ensures forall k :: k in KeysInOrder(es) <==> exists e :: e in es && KeyOf(e) == k
  {
    if es != [] {
      var p, e := es[..|es| - 1], es[|es| - 1];
      KeysInOrderMembers(p);
      assert forall x :: x in es <==> x in p || x == e;
    }
  }

  lemma {:induction false} KeysInOrderDistinct(es: seq<Stored>)
    ensures forall i, j :: 0 <= i < j < |KeysInOrder(es)| ==> KeysInOrder(es)[i] != KeysInOrder(es)[j]
  {
    if es != [] {
      var init := KeysInOrder(es[..|es| - 1]);
      KeysInOrderDistinct(es[..|es| - 1]);
      var k := KeyOf(es[|es| - 1]);
      if k !in init {
        var r := init + [k];
        forall i, j | 0 <= i < j < |r| ensures r[i] != r[j] {
          if j == |init| {
            assert r[i] == init[i];
          } else {
            assert r[i] == init[i] && r[j] == init[j];
          }
        }
      }
    }
  }

  /** The name recorded for wallet `k`: that of its first event, when truthy. */
  function NameFor(es: seq<Stored>, k: string): Option<string> {
    if es == [] then None
    else if k in KeysInOrder(es[..|es| - 1]) then NameFor(es[..|es| - 1], k)
    else if KeyOf(es[|es| - 1]) == k then
      (if es[|es| - 1].name.Some? && es[|es| - 1].name.value != "" then es[|es| - 1].name else None)
    else None
  }

  function StatFor(es: seq<Stored>, k: string): WalletStat {
    WalletStat(k, NameFor(es, k), InFor(es, k), OutFor(es, k), CountFor(es, k))
  }

  ghost predicate Aggregated(es: seq<Stored>, order: seq<string>, byWallet: map<string, WalletStat>) {
    && order == KeysInOrder(es)
    && (forall k :: k in byWallet <==> k in order)
    && (forall k :: k in byWallet ==> byWallet[k] == StatFor(es, k))
  }

  /** The accumulator a wallet starts from: its address, the name of its first event, zero sums. */
  function FreshStat(e: Stored): WalletStat {
    WalletStat(KeyOf(e), if e.name.Some? && e.name.value != "" then e.name else None, 0.0, 0.0, 0)
  }

  /** `count++`, then the delta goes to `inSol` when positive and its magnitude to `outSol` otherwise. */
  function Bump(st: WalletStat, e: Stored): WalletStat {
    if e.deltaSol > 0.0 then st.(count := st.count + 1, inSol := st.inSol + e.deltaSol)
    else st.(count := st.count + 1, outSol := st.outSol - e.deltaSol)
  }

  /** A wallet with no event so far has nothing counted. */
  lemma {:induction false} AbsentKeyStats(es: seq<Stored>, k: string)
    requires k !in KeysInOrder(es)
    ensures StatFor(es, k) == WalletStat(k, None, 0.0, 0.0, 0)
  {
    if es != [] {
      var p := es[..|es| - 1];
      assert k !in KeysInOrder(p);
      AbsentKeyStats(p, k);
    }
  }

  /** An event of another wallet leaves a wallet's aggregate as it was. */
  lemma StatForOther(es: seq<Stored>, i: nat, k: string)
    requires i < |es| && KeyOf(es[i]) != k
    ensures StatFor(es[..i + 1], k) == StatFor(es[..i], k)
  {
    var q := es[..i + 1];
    assert q[..i] == es[..i] && q[i] == es[i];
  }

  /** An event of wallet `k` bumps its aggregate, which starts fresh at its first event. */
  lemma StatForSame(es: seq<Stored>, i: nat)
    requires i < |es|
    ensures var k := KeyOf(es[i]);
      StatFor(es[..i + 1], k) == Bump(if k in KeysInOrder(es[..i]) then StatFor(es[..i], k) else FreshStat(es[i]), es[i])
  {
    var p, q := es[..i], es[..i + 1];
    assert q[..i] == p && q[i] == es[i];
    var k := KeyOf(es[i]);
    if k !in KeysInOrder(p) {
      AbsentKeyStats(p, k);
    }
  }

  lemma AggregateStep(es: seq<Stored>, i: nat, order: seq<string>, byWallet: map<string, WalletStat>)
    requires i < |es| && Aggregated(es[..i], order, byWallet)
    ensures var k := KeyOf(es[i]);
      var base := if k in byWallet then byWallet[k] else FreshStat(es[i]);
      Aggregated(es[..i + 1], if k in byWallet then order else order + [k], byWallet[k := Bump(base, es[i])])
  {
    var p, q := es[..i], es[..i + 1];
    assert q[..i] == p;
    var e := es[i];
    var k := KeyOf(e);
    var base := if k in byWallet then byWallet[k] else FreshStat(e);
    var m := byWallet[k := Bump(base, e)];
    StatForSame(es, i);
    forall k' | k' in m ensures m[k'] == StatFor(q, k') {
      if k' != k {
        StatForOther(es, i, k');
      }
    }
  }

  /** The `byWallet` loop: per-wallet event count and in/out sums, keyed by address in order of first appearance. */
  method Aggregate(es: seq<Stored>) returns (order: seq<string>, byWallet: map<string, WalletStat>)
    ensures order == KeysInOrder(es)
    ensures forall k :: k in byWallet <==> k in order
    ensures forall k :: k in byWallet ==> byWallet[k] == StatFor(es, k)
  {
    order, byWallet := [], map[];
    var i := 0;
    while i < |es|
      invariant 0 <= i <= |es|
      invariant Aggregated(es[..i], order, byWallet)
    {
      AggregateStep(es, i, order, byWallet);
      var e := es[i];
      var k := KeyOf(e);
      var w := if k in byWallet then byWallet[k] else FreshStat(e);
      if k !in byWallet {
        order := order + [k];
      }
      byWallet := byWallet[k := Bump(w, e)];
      i := i + 1;
    }
    assert es[..i] == es;
  }

  function IsFor(k: string): Stored -> bool {
    e => KeyOf(e) == k
  }

  /** A wallet's count is its number of events, and its sums are non-negative. */
  lemma {:induction false} StatFacts(es: seq<Stored>, k: string)
    ensures CountFor(es, k) == |Seqs.Filter(es, IsFor(k))|
    ensures InFor(es, k) >= 0.0 && OutFor(es, k) >= 0.0
  {
    if es != [] {
      StatFacts(es[..|es| - 1], k);
    }
  }

  /** `Object.values(byWallet)`: one accumulator per wallet, in order of first appearance. */
  function StatsInOrder(es: seq<Stored>): (r: seq<WalletStat>)
    ensures |r| == |KeysInOrder(es)|
  {
    var order := KeysInOrder(es);
    seq(|order|, i requires 0 <= i < |order| => StatFor(es, order[i]))
  }

  predicate TotalBefore(a: WalletStat, b: WalletStat) {
    a.inSol + a.outSol >= b.inSol + b.outSol
  }

  predicate LaterBefore(a: Stored, b: Stored) {
    TimeOf(a) >= TimeOf(b)
  }

  lemma SummaryOrdersArePreorders()
    ensures Seqs.TotalPreorder(TotalBefore)
    ensures Seqs.TotalPreorder(LaterBefore)
  {
  }

  /** `wallets`: the accumulators sorted by `inSol + outSol`, largest first, at most 50. */
  function TopWallets(es: seq<Stored>): (r: seq<WalletStat>)
    ensures |r| == Seqs.Min(50, |KeysInOrder(es)|)
  {
    Seqs.SliceTo(Seqs.SortBy(StatsInOrder(es), TotalBefore), 50)
  }

  /** `latest`: the events sorted by time, newest first, at most 20. */
  function Latest(es: seq<Stored>): (r: seq<Stored>)
    ensures |r| == Seqs.Min(20, |es|)
  {
    Seqs.SliceTo(Seqs.SortBy(es, LaterBefore), 20)
  }

  datatype Summary = Summary(lookbackHours: nat, thresholdSol: JsNumber, rpc: seq<string>, eventCount24h: nat,
                             wallets: seq<WalletStat>, latest: seq<Stored>)

  /** The summary written at the end of a run: the recent events among the last lines of the events file. */
  function SummaryOf(log: seq<Line>, now: int, thr: JsNumber, urls: seq<string>): Summary {
    var events := Recent(Seqs.LastN(log, MaxLines), now - LookbackMs);
    Summary(24, thr, urls, |events|, TopWallets(events), Latest(events))
  }

  /** Builds the summary object of the events file at time `now`. */
  method BuildSummary(lines: seq<Line>, now: int, thr: JsNumber, urls: seq<string>) returns (s: Summary)
    ensures s == SummaryOf(lines, now, thr, urls)
  {
    var events := SelectRecent(lines, now);
    var order, byWallet := Aggregate(events);
    var values := seq(|order|, i requires 0 <= i < |order| => byWallet[order[i]]);
    assert values == StatsInOrder(events) by {
      forall i | 0 <= i < |order| ensures values[i] == StatsInOrder(events)[i] {
        assert order[i] in byWallet;
      }
    }
    var wallets := Seqs.SortBy(values, TotalBefore);
    var latest := Seqs.SortBy(events, LaterBefore);
    s := Summary(24, thr, urls, |events|, Seqs.SliceTo(wallets, 50), Seqs.SliceTo(latest, 20));
  }

  /** Both lists are sorted and bounded; every wallet entry is that wallet's aggregate. */
  lemma TopWalletsShape(es: seq<Stored>)
    ensures |TopWallets(es)| <= 50 && Seqs.SortedBy(TopWallets(es), TotalBefore)
    ensures forall w :: w in TopWallets(es) ==> w.address in KeysInOrder(es) && w == StatFor(es, w.address)
  {
    var values := StatsInOrder(es);
    var sorted := Seqs.SortBy(values, TotalBefore);
    Seqs.SortBySorted(values, TotalBefore);
    forall w | w in TopWallets(es) ensures w.address in KeysInOrder(es) && w == StatFor(es, w.address) {
      var j :| 0 <= j < |TopWallets(es)| && TopWallets(es)[j] == w;
      assert w == sorted[j];
      assert w in multiset(sorted);
      assert w in multiset(values);
      var i :| 0 <= i < |values| && values[i] == w;
    }
  }

  /** `latest` is sorted, holds at most 20 events, and only events of the window. */
  lemma LatestShape(es: seq<Stored>, since: int)
    requires forall e :: e in es ==> TimeOf(e) >= since
    ensures |Latest(es)| <= 20 && Seqs.SortedBy(Latest(es), LaterBefore)
    ensures forall e :: e in Latest(es) ==> e in es && TimeOf(e) >= since
  {
    var sorted := Seqs.SortBy(es, LaterBefore);
    Seqs.SortBySorted(es, LaterBefore);
    forall e | e in Latest(es) ensures e in es {
      var j :| 0 <= j < |Latest(es)| && Latest(es)[j] == e;
      assert e == sorted[j];
      assert e in multiset(sorted);
    }
  }

  // ------------------------------------------------------------ the run

  /** A checkpoint record; "" stands for a missing or empty `lastSignature`. */
  datatype Checkpoint = Checkpoint(lastSignature: string, updatedAt: string)

  /** What `getSignaturesForAddress(address, {limit, until})` came back with (`None`: not an array). */
  type SigsLookup = (string, JsNumber, Option<string>) -> Result<Option<seq<string>>, RpcFailure>

  /** The checkpoints after a batch: the newest signature, `sigs[0]`, when it is non-empty. */
  function Checkpointed(cps: map<string, Checkpoint>, address: string, sigs: seq<string>, nowIso: string): (r: map<string, Checkpoint>)
    ensures sigs == [] || sigs[0] == "" ==> r == cps
    ensures sigs != [] && sigs[0] != "" ==> r == cps[address := Checkpoint(sigs[0], nowIso)]
  {
    if sigs != [] && sigs[0] != "" then cps[address := Checkpoint(sigs[0], nowIso)] else cps
  }

  /** `checkpoints[address]?.lastSignature || null`. */
  function LastSig(cps: map<string, Checkpoint>, address: string): Option<string> {
    if address in cps && cps[address].lastSignature != "" then Some(cps[address].lastSignature) else None
  }

  /**
   * What one run works with: the signature limit, the threshold, the
   * clock, and the outcomes of the two RPC calls it makes.
   */
  datatype Setup = Setup(limit: JsNumber, thr: JsNumber, now: int, nowIso: string, sigsOf: SigsLookup, txOf: TxLookup)

  /**
   * The effect of one wallet of the main loop: the checkpoints after it,
   * the events it appended, and the failure that ended the run, if any.
   */
  function WalletStep(w: Wallet, cps: map<string, Checkpoint>, su: Setup): (r: (map<string, Checkpoint>, seq<Event>, Option<RpcFailure>)) {
    if w.address == "" then (cps, [], None)
    else match su.sigsOf(w.address, su.limit, LastSig(cps, w.address))
      case Err(e) => (cps, [], Some(e))
      case Ok(None) => (cps, [], None)
      case Ok(Some(sigs)) =>
        if sigs == [] then (cps, [], None)
        else
          var run := BatchRun(w, Reverse(sigs), su.txOf, su.thr, su.now);
          (if run.1.Some? then cps else Checkpointed(cps, w.address, sigs, su.nowIso), run.0, run.1)
  }

  /** A wallet's step touches only that wallet's checkpoint, and a failed step none. */
  lemma WalletStepCheckpoints(w: Wallet, cps: map<string, Checkpoint>, su: Setup)
    ensures var r := WalletStep(w, cps, su);
      && (forall a :: a != w.address ==> (a in r.0 <==> a in cps) && (a in cps ==> r.0[a] == cps[a]))
      && (r.2.Some? ==> r.0 == cps)
  {
  }

  /** The main loop over the wallets, stopping at the first failure. */
  function WalletsRun(ws: seq<Wallet>, cps: map<string, Checkpoint>, su: Setup): (r: (map<string, Checkpoint>, seq<Event>, Option<RpcFailure>)) {
    if ws == [] then (cps, [], None)
    else
      var init := WalletsRun(ws[..|ws| - 1], cps, su);
      if init.2.Some? then init
      else
        var step := WalletStep(ws[|ws| - 1], init.0, su);
        (step.0, init.1 + step.1, step.2)
  }

  /** How the run ended: exit 2 without wallets, exit 1 when an RPC call threw, else the summary. */
  datatype RunOutcome = NoWallets | Crashed(error: RpcFailure) | Finished(newEvents: nat, summary: Summary)

  /** The monitor's persistent state: the checkpoints, the events file, and this run's event count. */
  class Monitor {
    var checkpoints: map<string, Checkpoint>
    var log: seq<Line>
    var newEvents: nat

    constructor(checkpoints: map<string, Checkpoint>, log: seq<Line>)
      ensures this.checkpoints == checkpoints && this.log == log && newEvents == 0
    {
      this.checkpoints := checkpoints;
      this.log := log;
      newEvents := 0;
    }

    /** Appends one event line to the events file. */
    method Append(e: Event)
      modifies this
      ensures log == old(log) + [Parsed(StoredOf(e))] && newEvents == old(newEvents) + 1
      ensures checkpoints == old(checkpoints)
    {
      log := log + [Parsed(StoredOf(e))];
      newEvents := newEvents + 1;
    }

    /** One signature of the walk: its event is appended, or its failed lookup is returned. */
    method WalkOne(w: Wallet, ordered: seq<string>, i: nat, txOf: TxLookup, thr: JsNumber, now: int,
                   ghost log0: seq<Line>, ghost n0: nat)
      returns (failure: Option<RpcFailure>)
      requires i < |ordered| && BatchRun(w, ordered[..i], txOf, thr, now).1.None?
      requires Logged(BatchRun(w, ordered[..i], txOf, thr, now).0, log0, n0, log, newEvents)
      modifies this
      ensures checkpoints == old(checkpoints)
      ensures failure.None? ==> BatchRun(w, ordered[..i + 1], txOf, thr, now).1.None?
      ensures failure.None? ==> Logged(BatchRun(w, ordered[..i + 1], txOf, thr, now).0, log0, n0, log, newEvents)
      ensures failure.Some? ==> BatchRun(w, ordered, txOf, thr, now) == (BatchRun(w, ordered[..i], txOf, thr, now).0, failure)
      ensures failure.Some? ==> log == old(log) && newEvents == old(newEvents)
    {
      ghost var run := BatchRun(w, ordered[..i], txOf, thr, now);
      BatchRunStep(w, ordered, i, txOf, thr, now);
      var outcome := VisitSignature(w, ordered[i], txOf, thr, now);
      failure := None;
      match outcome {
        case LookupFailed(err) =>
          failure := Some(err);
          BatchStops(w, ordered, i, txOf, thr, now);
        case Emitted(e) =>
          Append(e);
          LoggedAppend(run.0, e, log0, n0);
        case Skipped =>
      }
    }

    /** Walks a batch oldest to newest, appending the events; stops at the first failed lookup. */
    method WalkBatch(w: Wallet, ordered: seq<string>, txOf: TxLookup, thr: JsNumber, now: int)
      returns (failure: Option<RpcFailure>)
      modifies this
      ensures var run := BatchRun(w, ordered, txOf, thr, now);
        && log == old(log) + LinesOf(run.0)
        && newEvents == old(newEvents) + |run.0|
        && failure == run.1
        && checkpoints == old(checkpoints)
    {
      failure := None;
      var i := 0;
      assert ordered[..0] == [];
      while i < |ordered|
        invariant 0 <= i <= |ordered|
        invariant checkpoints == old(checkpoints) && failure.None?
        invariant BatchRun(w, ordered[..i], txOf, thr, now).1.None?
        invariant Logged(BatchRun(w, ordered[..i], txOf, thr, now).0, old(log), old(newEvents), log, newEvents)
      {
        failure := WalkOne(w, ordered, i, txOf, thr, now, old(log), old(newEvents));
        if failure.Some? {
          return;
        }
        i := i + 1;
      }
      assert ordered[..i] == ordered;
    }

    /**
     * One wallet of the main loop: fetch its signatures since the
     * checkpoint, walk them oldest to newest appending events, then move
     * the checkpoint to the newest signature.  A failed RPC call stops
     * the run; what was appended before it stays appended.
     */
    method ProcessWallet(w: Wallet, su: Setup) returns (failure: Option<RpcFailure>)
      modifies this
      ensures var step := WalletStep(w, old(checkpoints), su);
        && checkpoints == step.0
        && log == old(log) + LinesOf(step.1)
        && newEvents == old(newEvents) + |step.1|
        && failure == step.2
    {
      failure := None;
      if w.address == "" {
        return;
      }
      var got := su.sigsOf(w.address, su.limit, LastSig(checkpoints, w.address));
      if got.Err? {
        return Some(got.error);
      }
      if got.value.None? || got.value.value == [] {
        return;
      }
      var sigs := got.value.value;
      var ordered := Reverse(sigs);
      failure := WalkBatch(w, ordered, su.txOf, su.thr, su.now);
      if failure.Some? {
        return;
      }
      checkpoints := Checkpointed(checkpoints, w.address, sigs, su.nowIso);
    }

    /** The loop over the wallets; it stops at the first failure. */
    method RunWallets(ws: seq<Wallet>, su: Setup) returns (failure: Option<RpcFailure>)
      modifies this
      ensures var r := WalletsRun(ws, old(checkpoints), su);
        && checkpoints == r.0 && log == old(log) + LinesOf(r.1)
        && newEvents == old(newEvents) + |r.1| && failure == r.2
    {
      ghost var cps0, log0, n0 := checkpoints, log, newEvents;
      failure := None;
      var i := 0;
      while i < |ws| && failure.None?
        invariant 0 <= i <= |ws|
        invariant failure.None? ==> WalletsRun(ws[..i], cps0, su).2.None?
        invariant failure.None? ==> Walked(ws[..i], cps0, log0, n0, su, checkpoints, log, newEvents)
        invariant failure.Some? ==> 0 < i && WalletsRun(ws[..i], cps0, su).2 == failure
        invariant failure.Some? ==> Walked(ws[..i], cps0, log0, n0, su, checkpoints, log, newEvents)
      {
        ghost var cps, lg, n := checkpoints, log, newEvents;
        failure := ProcessWallet(ws[i], su);
        WalkedAdvance(ws, i, cps0, log0, n0, su, cps, lg, n, checkpoints, log, newEvents);
        i := i + 1;
      }
      if failure.Some? {
        WalletsStop(ws, i - 1, cps0, su);
      } else {
        assert ws[..i] == ws;
      }
    }

    /**
     * `main`: without configured wallets nothing happens (exit 2); otherwise
     * each wallet is processed in turn.  When an RPC call throws, the run
     * stops (exit 1) before the checkpoints are written; otherwise the
     * checkpoints are saved and the summary is built from the events file.
     */
    method Run(wallets: Option<seq<Wallet>>, su: Setup, urls: seq<string>)
      returns (out: RunOutcome, saved: Option<map<string, Checkpoint>>)
      modifies this
      ensures wallets.None? || wallets.value == [] ==> out == NoWallets && saved.None? && unchanged(this)
      ensures wallets.Some? && wallets.value != [] ==>
        var r := WalletsRun(wallets.value, old(checkpoints), su);
        && checkpoints == r.0
        && log == old(log) + LinesOf(r.1)
        && (r.2.Some? ==> out == Crashed(r.2.value) && saved.None?)
        && (r.2.None? ==>
              saved == Some(r.0) && out == Finished(old(newEvents) + |r.1|, SummaryOf(log, su.now, su.thr, urls)))
    {
      saved := None;
      if wallets.None? || wallets.value == [] {
        return NoWallets, None;
      }
      var failure := RunWallets(wallets.value, su);
      if failure.Some? {
        return Crashed(failure.value), None;
      }
      saved := Some(checkpoints);
      var summary := BuildSummary(log, su.now, su.thr, urls);
      assert summary == SummaryOf(log, su.now, su.thr, urls);
      out := Finished(newEvents, summary);
      assert out.summary == SummaryOf(log, su.now, su.thr, urls);
    }
  }

  lemma WalletsRunStep(ws: seq<Wallet>, i: nat, cps: map<string, Checkpoint>, su: Setup)
    requires i < |ws|
    requires WalletsRun(ws[..i], cps, su).2.None?
    ensures var r := WalletsRun(ws[..i], cps, su);
      var step := WalletStep(ws[i], r.0, su);
      WalletsRun(ws[..i + 1], cps, su) == (step.0, r.1 + step.1, step.2)
  {
    assert ws[..i + 1][..i] == ws[..i];
  }

  /** `cps`, `log` and `n` are the state after the wallets `ws` of a run that started from `cps0`, `log0` and `n0`. */
  ghost predicate Walked(ws: seq<Wallet>, cps0: map<string, Checkpoint>, log0: seq<Line>, n0: nat, su: Setup,
                         cps: map<string, Checkpoint>, log: seq<Line>, n: nat)
  {
    var r := WalletsRun(ws, cps0, su);
    cps == r.0 && log == log0 + LinesOf(r.1) && n == n0 + |r.1|
  }

  /** One more wallet of the main loop extends the walked state by that wallet's step. */
  lemma WalkedAdvance(ws: seq<Wallet>, i: nat, cps0: map<string, Checkpoint>, log0: seq<Line>, n0: nat, su: Setup,
                      cps: map<string, Checkpoint>, log: seq<Line>, n: nat,
                      cps': map<string, Checkpoint>, log': seq<Line>, n': nat)
    requires i < |ws| && WalletsRun(ws[..i], cps0, su).2.None?
    requires Walked(ws[..i], cps0, log0, n0, su, cps, log, n)
    requires var step := WalletStep(ws[i], cps, su);
      cps' == step.0 && log' == log + LinesOf(step.1) && n' == n + |step.1|
    ensures Walked(ws[..i + 1], cps0, log0, n0, su, cps', log', n')
    ensures WalletsRun(ws[..i + 1], cps0, su).2 == WalletStep(ws[i], cps, su).2
  {
    WalletsRunStep(ws, i, cps0, su);
    WalkedCompose(WalletsRun(ws[..i], cps0, su).1, WalletStep(ws[i], cps, su).1, log0, n0, log, n, log', n');
  }

  /** Appending the lines of two event runs one after the other appends the lines of their concatenation. */
  lemma WalkedCompose(a: seq<Event>, b: seq<Event>, log0: seq<Line>, n0: nat, log: seq<Line>, n: nat, log': seq<Line>, n': nat)
    requires log == log0 + LinesOf(a) && n == n0 + |a|
    requires log' == log + LinesOf(b) && n' == n + |b|
    ensures log' == log0 + LinesOf(a + b) && n' == n0 + |a + b|
  {
    LinesOfConcat(a, b);
  }

  /** The event lines written for `evs`. */
  function LinesOf(evs: seq<Event>): (r: seq<Line>)
    ensures |r| == |evs|
  {
    seq(|evs|, i requires 0 <= i < |evs| => Parsed(StoredOf(evs[i])))
  }

  lemma LinesOfAppend(evs: seq<Event>, e: Event)
    ensures LinesOf(evs + [e]) == LinesOf(evs) + [Parsed(StoredOf(e))]
  {
    LinesOfConcat(evs, [e]);
  }

  lemma LinesOfConcat(a: seq<Event>, b: seq<Event>)
    ensures LinesOf(a + b) == LinesOf(a) + LinesOf(b)
  {
    var l, r := LinesOf(a + b), LinesOf(a) + LinesOf(b);
    forall i | 0 <= i < |l| ensures l[i] == r[i] {
      if i < |a| {
        assert (a + b)[i] == a[i];
      } else {
        assert (a + b)[i] == b[i - |a|];
      }
    }
  }

  /** A failure at wallet `i` ends the main loop there. */
  lemma {:induction false} WalletsStop(ws: seq<Wallet>, i: nat, cps: map<string, Checkpoint>, su: Setup)
    requires i < |ws|
    requires WalletsRun(ws[..i + 1], cps, su).2.Some?
    ensures WalletsRun(ws, cps, su) == WalletsRun(ws[..i + 1], cps, su)
    decreases |ws|
  {
    if |ws| > i + 1 {
      var p := ws[..|ws| - 1];
      assert p[..i + 1] == ws[..i + 1];
      WalletsStop(p, i, cps, su);
    } else {
      assert ws[..i + 1] == ws;
    }
  }

  /** Once the walk has failed at `i`, the rest of the batch changes nothing. */
  lemma {:induction false} BatchStops(w: Wallet, ordered: seq<string>, i: nat, txOf: TxLookup, thr: JsNumber, now: int)
    requires i < |ordered| && SigOutcomeOf(w, ordered[i], txOf, thr, now).LookupFailed?
    requires BatchRun(w, ordered[..i], txOf, thr, now).1.None?
    ensures BatchRun(w, ordered, txOf, thr, now) ==
      (BatchRun(w, ordered[..i], txOf, thr, now).0, Some(SigOutcomeOf(w, ordered[i], txOf, thr, now).error))
    decreases |ordered|
  {
    if |ordered| == i + 1 {
      assert ordered[..|ordered| - 1] == ordered[..i];
    } else {
      var p := ordered[..|ordered| - 1];
      assert p[..i] == ordered[..i] && p[i] == ordered[i];
      BatchStops(w, p, i, txOf, thr, now);
    }
  }

  /** `log` and `n` are `log0` and `n0` with the lines of `evs` appended and counted. */
  ghost predicate Logged(evs: seq<Event>, log0: seq<Line>, n0: nat, log: seq<Line>, n: nat) {
    log == log0 + LinesOf(evs) && n == n0 + |evs|
  }

  lemma LoggedAppend(evs: seq<Event>, e: Event, log0: seq<Line>, n0: nat)
    ensures Logged(evs + [e], log0, n0, log0 + LinesOf(evs) + [Parsed(StoredOf(e))], n0 + |evs| + 1)
  {
    LinesOfAppend(evs, e);
  }
}
