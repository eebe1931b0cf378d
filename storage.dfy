/**
 * The daily-snapshot history of the market dashboard (storage.js): one row
 * per Asia/Shanghai calendar day, kept sorted and trimmed to the latest 60.
 */
module Storage {
  import opened Wrappers
  import Seqs

  const HourMs := 3_600_000
  const DayMs := 86_400_000
  /** Asia/Shanghai is UTC+8 all year. */
  const ShanghaiOffsetMs := 8 * HourMs
  const KeepDays := 60

  /**
   * `dayKeyShanghai(ts)`: the UTC calendar day of `ts + 8h`, numbered from
   * the epoch instead of written `YYYY-MM-DD`.
   */
  function DayKeyShanghai(tsMs: int): (day: int)
    ensures day * DayMs <= tsMs + ShanghaiOffsetMs < (day + 1) * DayMs
  {
    (tsMs + ShanghaiOffsetMs) / DayMs
  }

  /** Two instants get the same key exactly when they fall in one UTC+8 day. */
  lemma SameShanghaiDay(a: int, b: int, d: int)
    ensures (DayKeyShanghai(a) == d && DayKeyShanghai(b) == d)
        <==> (&& d * DayMs - ShanghaiOffsetMs <= a < (d + 1) * DayMs - ShanghaiOffsetMs
              && d * DayMs - ShanghaiOffsetMs <= b < (d + 1) * DayMs - ShanghaiOffsetMs)
  {
    if d * DayMs - ShanghaiOffsetMs <= a < (d + 1) * DayMs - ShanghaiOffsetMs {
      KeyOfWindow(a, d);
    }
    if d * DayMs - ShanghaiOffsetMs <= b < (d + 1) * DayMs - ShanghaiOffsetMs {
      KeyOfWindow(b, d);
    }
  }

  lemma KeyOfWindow(ts: int, d: int)
    requires d * DayMs <= ts + ShanghaiOffsetMs < (d + 1) * DayMs
    ensures DayKeyShanghai(ts) == d
  {
  }

  lemma DayKeyMonotone(a: int, b: int)
    requires a <= b
    ensures DayKeyShanghai(a) <= DayKeyShanghai(b)
  {
  }

  /** The fields of a snapshot the history reads; None where the source chain is missing or null. */
  datatype Snapshot = Snapshot(
    asOf: int,
    btcUsd: Option<real>, ethUsd: Option<real>,
    btcChg24hPct: Option<real>, ethChg24hPct: Option<real>,
    stableMcapUsd: Option<real>, dexVol24hUsd: Option<real>,
    btcFunding: Option<real>, ethFunding: Option<real>,
    btcOiUsd: Option<real>, ethOiUsd: Option<real>,
    btcLiqUsdEst: Option<real>, ethLiqUsdEst: Option<real>,
    exchangeBtcBalancesAvailable: Option<bool>, solEtfAvailable: Option<bool>)

  /** A history row; None is JSON `null`. */
  datatype Row = Row(
    day: int, asOf: int,
    btc: Option<real>, eth: Option<real>,
    btcChg24hPct: Option<real>, ethChg24hPct: Option<real>,
    stableMcapUsd: Option<real>, dexVol24hUsd: Option<real>,
    btcFunding: Option<real>, ethFunding: Option<real>,
    btcOiUsd: Option<real>, ethOiUsd: Option<real>,
    btcLiqUsdEst: Option<real>, ethLiqUsdEst: Option<real>,
    exchangeBtcBalancesAvailable: bool, solEtfAvailable: bool)

  function OrFalse(o: Option<bool>): bool { o.Some? && o.value }

  /** The row built from a snapshot (storage.js lines 36-61). */
  function MakeRow(s: Snapshot): (r: Row)
    ensures r.day == DayKeyShanghai(s.asOf) && r.asOf == s.asOf
    ensures r.btc == s.btcUsd && r.eth == s.ethUsd
    ensures r.btcChg24hPct == s.btcChg24hPct && r.ethChg24hPct == s.ethChg24hPct
    ensures r.stableMcapUsd == s.stableMcapUsd && r.dexVol24hUsd == s.dexVol24hUsd
    ensures r.btcFunding == s.btcFunding && r.ethFunding == s.ethFunding
    ensures r.btcOiUsd == s.btcOiUsd && r.ethOiUsd == s.ethOiUsd
    ensures r.btcLiqUsdEst == s.btcLiqUsdEst && r.ethLiqUsdEst == s.ethLiqUsdEst
    ensures r.exchangeBtcBalancesAvailable <==> s.exchangeBtcBalancesAvailable == Some(true)
    ensures r.solEtfAvailable <==> s.solEtfAvailable == Some(true)
  {
    Row(DayKeyShanghai(s.asOf), s.asOf,
        s.btcUsd, s.ethUsd, s.btcChg24hPct, s.ethChg24hPct,
        s.stableMcapUsd, s.dexVol24hUsd, s.btcFunding, s.ethFunding,
        s.btcOiUsd, s.ethOiUsd, s.btcLiqUsdEst, s.ethLiqUsdEst,
        OrFalse(s.exchangeBtcBalancesAvailable), OrFalse(s.solEtfAvailable))
  }

  /** What reading the history file yields: no readable JSON, some other JSON value, or an array of rows. */
  datatype Parsed = Unreadable | NotArray | RowArray(rows: seq<Row>)

  /** `loadHistory()`: the array, or empty for anything else. */
  function LoadHistory(p: Parsed): (rows: seq<Row>)
    ensures p.RowArray? ==> rows == p.rows
    ensures !p.RowArray? ==> rows == []
  {
    match p
    case RowArray(rows) => rows
    case _ => []
  }

  /** `rows.findIndex((r) => r.day === key)`. */
  function FindDay(rows: seq<Row>, day: int): (i: int)
    ensures -1 <= i < |rows|
    ensures i == -1 <==> forall j :: 0 <= j < |rows| ==> rows[j].day != day
    ensures i >= 0 ==> rows[i].day == day && forall j :: 0 <= j < i ==> rows[j].day != day
  {
    if rows == [] then -1
    else if rows[0].day == day then 0
    else
      var i := FindDay(rows[1..], day);
      if i == -1 then -1 else i + 1
  }

  /** Replace the first row of the same day, or append (lines 63-65). */
  function Upsert(rows: seq<Row>, row: Row): (r: seq<Row>)
    ensures row in r && |rows| <= |r| <= |rows| + 1
  {
    var idx := FindDay(rows, row.day);
    if idx >= 0 then assert rows[idx := row][idx] == row; rows[idx := row] else rows + [row]
  }

  /** The upsert touches one position: the first row of that day, or a new last one. */
  lemma UpsertReplacesFirstOrAppends(rows: seq<Row>, row: Row)
    ensures var r := Upsert(rows, row);
            var idx := FindDay(rows, row.day);
            && (idx >= 0 ==> |r| == |rows| && r[idx] == row
                             && forall j :: 0 <= j < |rows| && j != idx ==> r[j] == rows[j])
            && (idx < 0 ==> r == rows + [row] && forall j :: 0 <= j < |rows| ==> rows[j].day != row.day)
    ensures row in Upsert(rows, row)
  {
  }

  /** Rows of other days are kept, none is lost and none is invented. */
  lemma UpsertKeepsOtherDays(rows: seq<Row>, row: Row)
    ensures forall x :: x in rows && x.day != row.day ==> x in Upsert(rows, row)
    ensures forall x :: x in Upsert(rows, row) ==> x == row || x in rows
    ensures multiset(Upsert(rows, row)) + (if FindDay(rows, row.day) >= 0 then multiset{rows[FindDay(rows, row.day)]} else multiset{})
         == multiset(rows) + multiset{row}
  {
    var idx := FindDay(rows, row.day);
    var r := Upsert(rows, row);
    if idx >= 0 {
      forall x | x in rows && x.day != row.day ensures x in r {
        var j :| 0 <= j < |rows| && rows[j] == x;
        assert r[j] == x;
      }
      Seqs.UpdateMultiset(rows, idx, row);
      forall x | x in r ensures x == row || x in rows {
        var j :| 0 <= j < |r| && r[j] == x;
        if j != idx { assert rows[j] == x; }
      }
    }
  }

  predicate DayBefore(a: Row, b: Row) { a.day <= b.day }

  lemma DayBeforeIsTotalPreorder()
    ensures Seqs.TotalPreorder(DayBefore)
  {
  }

  /**
   * The whole update of `upsertDailySnapshot` (lines 32-72): the new row,
   * and the history saved after the upsert, the sort by day and
   * `slice(-60)`.
   */
  method UpsertDailySnapshot(parsed: Parsed, snapshot: Snapshot) returns (saved: seq<Row>, row: Row)
    ensures row == MakeRow(snapshot)
    ensures saved == Seqs.LastN(Seqs.SortBy(Upsert(LoadHistory(parsed), row), DayBefore), KeepDays)
  {
    var rows := LoadHistory(parsed);
    var key := DayKeyShanghai(snapshot.asOf);
    row := MakeRow(snapshot);
    var idx := FindDay(rows, key);
    if idx >= 0 {
      rows := rows[idx := row];
    } else {
      rows := rows + [row];
    }
    rows := Seqs.SortBy(rows, DayBefore);
    saved := Seqs.LastN(rows, KeepDays);
  }

  /**
   * The saved history is sorted by day, has at most 60 rows, and every row
   * dropped by the trim is no later than any kept row.
   */
  lemma SavedIsLatestSorted(rows: seq<Row>, row: Row)
    ensures var all := Seqs.SortBy(Upsert(rows, row), DayBefore);
            var saved := Seqs.LastN(all, KeepDays);
            && Seqs.SortedBy(saved, DayBefore)
            && |saved| == Seqs.Min(KeepDays, |Upsert(rows, row)|)
            && multiset(saved) <= multiset(Upsert(rows, row))
            && (forall i, j :: 0 <= i < |all| - |saved| <= j < |all| ==> all[i].day <= all[j].day)
  {
    var u := Upsert(rows, row);
    var all := Seqs.SortBy(u, DayBefore);
    DayBeforeIsTotalPreorder();
    Seqs.SortThenLastN(u, KeepDays, DayBefore);
    var saved := Seqs.LastN(all, KeepDays);
    forall i, j | 0 <= i < |all| - |saved| <= j < |all| ensures all[i].day <= all[j].day {
      assert DayBefore(all[i], all[j]);
    }
  }
}
