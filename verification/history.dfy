/**
 The `rates_history` table: one row per (day, currency), written by the
 history save that follows every fresh page fetch and read back by the
 history view and by the day-over-day change indicator. Days are counted
 from the Unix epoch; the SQL itself is not modelled.
 */
module History {
  import opened Common
  import opened Currencies
  import opened Fetcher

  const DayMs: int := 24 * 60 * 60 * 1000

  /** Asia/Tashkent is five hours ahead of UTC all year. */
  const TashkentOffsetMs: int := 5 * 60 * 60 * 1000

  /** The calendar day `toISOString` reports for an instant: the UTC day. */
  function UtcDay(ms: int): int {
    ms / DayMs
  }

  /** The calendar day in Asia/Tashkent for an instant. */
  function TashkentDay(ms: int): int {
    (ms + TashkentOffsetMs) / DayMs
  }

  /** The day the history save writes under and the day the change indicator
      calls "today" are the same, except in the first five hours of the
      Tashkent day, when Tashkent is already one day ahead. */
  lemma TodayNotions(ms: int)
    ensures TashkentDay(ms) == UtcDay(ms) || TashkentDay(ms) == UtcDay(ms) + 1
    ensures TashkentDay(ms) != UtcDay(ms) <==> (ms + TashkentOffsetMs) % DayMs < TashkentOffsetMs
  {
    var t := ms + TashkentOffsetMs;
    assert t == DayMs * (t / DayMs) + t % DayMs;
    assert ms == DayMs * (ms / DayMs) + ms % DayMs;
  }

  datatype Key = Key(date: int, code: Code)

  /** The five data columns. The bank columns are NULL (None) on a row that
      only a chart backfill has written. */
  datatype Row = Row(cbRate: int, buyRate: Option<int>, buyName: Option<string>, sellRate: Option<int>, sellName: Option<string>)

  type Store = map<Key, Row>

  /** How many of the newest chart points a save backfills. */
  const BackfillWindow: nat := 30

  // ---------------------------------------------------------------------------
  // Writing

  /** Today's full row: the central-bank rate and the first offer of each list,
      or rate 0 and no name for an empty list. */
  function TodayRow(s: Snapshot): (r: Row)
    ensures r.cbRate == s.cbRate && r.buyRate.Some? && r.sellRate.Some?
    ensures |s.buy| > 0 ==> r.buyRate == Some(s.buy[0].rate) && r.buyName == Some(s.buy[0].bank)
    ensures |s.buy| == 0 ==> r.buyRate == Some(0) && r.buyName == None
    ensures |s.sell| > 0 ==> r.sellRate == Some(s.sell[0].rate) && r.sellName == Some(s.sell[0].bank)
    ensures |s.sell| == 0 ==> r.sellRate == Some(0) && r.sellName == None
  {
    Row(s.cbRate,
        Some(if |s.buy| > 0 then s.buy[0].rate else 0), if |s.buy| > 0 then Some(s.buy[0].bank) else None,
        Some(if |s.sell| > 0 then s.sell[0].rate else 0), if |s.sell| > 0 then Some(s.sell[0].bank) else None)
  }

  /** The newest `BackfillWindow` points, in chart order (`slice(-30)`). */
  function Recent(chart: seq<ChartPoint>): (r: seq<ChartPoint>)
    ensures |r| == if |chart| <= BackfillWindow then |chart| else BackfillWindow
    ensures r == chart[|chart| - |r|..]
  {
    if |chart| <= BackfillWindow then chart else chart[|chart| - BackfillWindow..]
  }

  /** One backfill write: a positive point sets only the cb_rate of its day's
      row, creating the row (with NULL bank columns) when missing. */
  function BackfillOne(h: Store, code: Code, p: ChartPoint): Store {
    if p.value > 0 then
      var k := Key(p.date, code);
      h[k := if k in h then h[k].(cbRate := p.value) else Row(p.value, None, None, None, None)]
    else h
  }

  /** The backfill writes, one point after another in chart order. */
  function Backfill(h: Store, code: Code, points: seq<ChartPoint>): Store
    decreases |points|
  {
    if |points| == 0 then h
    else BackfillOne(Backfill(h, code, points[..|points| - 1]), code, points[|points| - 1])
  }

  /** The history save for one fetched page on day `today` (UTC). */
  function SaveHistory(h: Store, today: int, job: PersistJob): Store {
    var h1 := h[Key(today, job.code) := TodayRow(job.snapshot)];
    if |job.chart| > 0 then Backfill(h1, job.code, Recent(job.chart)) else h1
  }

  // ---------------------------------------------------------------------------
  // A reference description of the writes

  /** The value of the last positive point for `date`, if any: the one that
      wins when a day appears more than once. */
  function LastValue(points: seq<ChartPoint>, date: int): (v: Option<int>)
    ensures v.Some? ==> v.value > 0
    decreases |points|
  {
    if |points| == 0 then None
    else
      var p := points[|points| - 1];
      if p.date == date && p.value > 0 then Some(p.value)
      else LastValue(points[..|points| - 1], date)
  }

  /** A row with its cb_rate replaced, or a fresh cb_rate-only row. */
  function Patched(h: Store, k: Key, v: int): Row {
    if k in h then h[k].(cbRate := v) else Row(v, None, None, None, None)
  }

  /** The backfill, key by key: a key of this currency whose day has a positive
      point gets the last such value as its cb_rate and keeps its bank columns;
      every other key is untouched. */
  lemma {:induction false} BackfillSpec(h: Store, code: Code, points: seq<ChartPoint>, k: Key)
    ensures var r := Backfill(h, code, points);
      if k.code == code && LastValue(points, k.date).Some? then
        k in r && r[k] == Patched(h, k, LastValue(points, k.date).value)
      else
        (k in r <==> k in h) && (k in h ==> r[k] == h[k])
    decreases |points|
  {
    if |points| > 0 {
      BackfillSpec(h, code, points[..|points| - 1], k);
    }
  }

  /** Backfilling never removes a row. */
  lemma BackfillKeeps(h: Store, code: Code, points: seq<ChartPoint>)
    ensures h.Keys <= Backfill(h, code, points).Keys
  {
    forall k | k in h ensures k in Backfill(h, code, points) {
      BackfillSpec(h, code, points, k);
    }
  }

  /** The history save, key by key. Today's row of the saved currency gets all
      five columns from the snapshot, except that a chart point for today
      overrides its cb_rate; other days of that currency with a positive point
      among the newest thirty get their cb_rate; nothing else changes. */
  lemma SaveHistorySpec(h: Store, today: int, job: PersistJob, k: Key)
    ensures var r := SaveHistory(h, today, job);
      var v := LastValue(Recent(job.chart), k.date);
      if k == Key(today, job.code) then
        k in r && r[k] == (if v.Some? then TodayRow(job.snapshot).(cbRate := v.value) else TodayRow(job.snapshot))
      else if k.code == job.code && v.Some? then
        k in r && r[k] == Patched(h, k, v.value)
      else
        (k in r <==> k in h) && (k in h ==> r[k] == h[k])
  {
    var h1 := h[Key(today, job.code) := TodayRow(job.snapshot)];
    BackfillSpec(h1, job.code, Recent(job.chart), k);
    if |job.chart| == 0 {
      assert Recent(job.chart) == [];
    }
  }

  /** Saving the same page twice on the same day leaves the table as saving it once. */
  lemma SaveHistoryIdempotent(h: Store, today: int, job: PersistJob)
    ensures SaveHistory(SaveHistory(h, today, job), today, job) == SaveHistory(h, today, job)
  {
    var once := SaveHistory(h, today, job);
    var twice := SaveHistory(once, today, job);
    forall k | k in once || k in twice
      ensures k in once && k in twice && twice[k] == once[k]
    {
      SaveHistorySpec(h, today, job, k);
      SaveHistorySpec(once, today, job, k);
    }
  }

  /** Saves for two different currencies touch disjoint rows, so the order in
      which two concurrent saves land does not matter. */
  lemma SaveHistoryCommute(h: Store, today: int, a: PersistJob, b: PersistJob)
    requires a.code != b.code
    ensures SaveHistory(SaveHistory(h, today, a), today, b) == SaveHistory(SaveHistory(h, today, b), today, a)
  {
    var ab := SaveHistory(SaveHistory(h, today, a), today, b);
    var ba := SaveHistory(SaveHistory(h, today, b), today, a);
    forall k | k in ab || k in ba
      ensures k in ab && k in ba && ab[k] == ba[k]
    {
      SaveHistorySpec(h, today, a, k);
      SaveHistorySpec(h, today, b, k);
      SaveHistorySpec(SaveHistory(h, today, a), today, b, k);
      SaveHistorySpec(SaveHistory(h, today, b), today, a, k);
    }
  }

  // ---------------------------------------------------------------------------
  // Reading: the history view

  /** The history view's default number of days. */
  const DefaultHistoryDays: nat := 7

  datatype Dated = Dated(date: int, row: Row)

  function DatesOf(rows: seq<Dated>): set<int> {
    set i | 0 <= i < |rows| :: rows[i].date
  }

  lemma DatesOfAppend(rows: seq<Dated>, r: Dated)
    ensures DatesOf(rows + [r]) == DatesOf(rows) + {r.date}
  {
    var rows' := rows + [r];
    forall d | d in DatesOf(rows') ensures d in DatesOf(rows) + {r.date} {
      var i :| 0 <= i < |rows'| && rows'[i].date == d;
      if i < |rows| {
        assert rows[i].date == d;
      }
    }
    forall d | d in DatesOf(rows) ensures d in DatesOf(rows') {
      var i :| 0 <= i < |rows| && rows[i].date == d;
      assert rows'[i].date == d;
    }
    assert rows'[|rows|].date == r.date;
  }

  lemma SomeMember(s: set<int>)
    requires s != {}
    ensures exists x :: x in s
  {
    if forall x :: x !in s {
      assert false;
    }
  }

  /** The greatest element of a non-empty set of days. */
  method Newest(s: set<int>) returns (m: int)
    requires s != {}
    ensures m in s && forall x :: x in s ==> x <= m
  {
    SomeMember(s);
    m :| m in s;
    var rest := s - {m};
    while rest != {}
      invariant rest <= s && m in s
      invariant forall x :: x in s && x !in rest ==> x <= m
      decreases rest
    {
      SomeMember(rest);
      var x :| x in rest;
      if x > m {
        m := x;
      }
      rest := rest - {x};
    }
  }

  /** What the history query has established part way: `rows` lists, newest
      first, some of the currency's rows, and `pending` holds exactly the days
      still to list, all older than those listed. */
  ghost predicate Listing(h: Store, code: Code, rows: seq<Dated>, pending: set<int>) {
    && (forall d :: d in pending ==> Key(d, code) in h)
    && (forall i :: 0 <= i < |rows| ==> Key(rows[i].date, code) in h && rows[i].row == h[Key(rows[i].date, code)])
    && (forall i, j :: 0 <= i < j < |rows| ==> rows[i].date > rows[j].date)
    && (forall d :: d in pending ==> d !in DatesOf(rows) && (|rows| == 0 || d < rows[|rows| - 1].date))
    && (forall d :: Key(d, code) in h ==> d in pending || d in DatesOf(rows))
  }

  /** Listing the newest pending day next keeps the listing sorted and complete. */
  lemma ListingStep(h: Store, code: Code, rows: seq<Dated>, pending: set<int>, m: int)
    requires Listing(h, code, rows, pending)
    requires m in pending && forall x :: x in pending ==> x <= m
    ensures Listing(h, code, rows + [Dated(m, h[Key(m, code)])], pending - {m})
  {
    var r := Dated(m, h[Key(m, code)]);
    var rows' := rows + [r];
    DatesOfAppend(rows, r);
    forall i, j | 0 <= i < j < |rows'| ensures rows'[i].date > rows'[j].date {
      if j == |rows| {
        assert rows[|rows| - 1].date > m;
        if i < |rows| - 1 {
          assert rows[i].date > rows[|rows| - 1].date;
        }
      } else {
        assert rows[i].date > rows[j].date;
      }
    }
    forall i | 0 <= i < |rows'|
      ensures Key(rows'[i].date, code) in h && rows'[i].row == h[Key(rows'[i].date, code)]
    {
      if i < |rows| {
        assert rows'[i] == rows[i];
      }
    }
  }

  /** `rows` is what `ORDER BY date DESC LIMIT days` returns for one currency:
      at most `days` rows, each as stored, strictly newest first, and any row
      left out is older than every listed one and only left out when the list is full. */
  ghost predicate NewestRows(h: Store, code: Code, days: nat, rows: seq<Dated>) {
    && |rows| <= days
    && (forall i :: 0 <= i < |rows| ==> Key(rows[i].date, code) in h && rows[i].row == h[Key(rows[i].date, code)])
    && (forall i, j :: 0 <= i < j < |rows| ==> rows[i].date > rows[j].date)
    && (forall d :: Key(d, code) in h && d !in DatesOf(rows) ==>
          |rows| == days && (|rows| == 0 || d < rows[|rows| - 1].date))
  }

  /** The newest `days` rows of one currency, newest first (`ORDER BY date DESC LIMIT days`). */
  method GetHistory(h: Store, code: Code, days: nat) returns (rows: seq<Dated>)
    ensures NewestRows(h, code, days, rows)
  {
    var pending := DaysOf(h, code);
    rows := [];
    while |rows| < days && pending != {}
      invariant |rows| <= days
      invariant Listing(h, code, rows, pending)
      decreases pending
    {
      var m := Newest(pending);
      ListingStep(h, code, rows, pending, m);
      rows := rows + [Dated(m, h[Key(m, code)])];
      pending := pending - {m};
    }
    forall d | Key(d, code) in h && d !in DatesOf(rows)
      ensures |rows| == days && (|rows| == 0 || d < rows[|rows| - 1].date)
    {
      assert d in pending;
    }
  }

  /** The days on which a currency has a row. */
  method DaysOf(h: Store, code: Code) returns (days: set<int>)
    ensures forall d :: d in days <==> Key(d, code) in h
  {
    days := set k | k in h && k.code == code :: k.date;
    forall d | Key(d, code) in h ensures d in days {
      assert Key(d, code).date == d;
    }
  }

  // ---------------------------------------------------------------------------
  // Reading: yesterday's rates

  /** A row the change indicator may use: before `today` and with a positive cb_rate. */
  predicate Candidate(h: Store, k: Key, today: int) {
    k in h && k.date < today && h[k].cbRate > 0
  }

  /** `date` is the latest candidate day of currency `c`. */
  ghost predicate LatestBefore(h: Store, c: Code, today: int, date: int) {
    Candidate(h, Key(date, c), today)
    && forall k :: Candidate(h, k, today) && k.code == c ==> k.date <= date
  }

  /** For each currency with a candidate row, the cb_rate of its latest one
      (`DISTINCT ON (currency) … ORDER BY currency, date DESC`). */
  method LatestRates(h: Store, today: int) returns (rates: map<Code, int>)
    ensures forall c :: c in rates <==> exists k :: Candidate(h, k, today) && k.code == c
    ensures forall c :: c in rates ==> exists d :: LatestBefore(h, c, today, d) && rates[c] == h[Key(d, c)].cbRate
  {
    var best: map<Code, int> := map[];
    var todo := h.Keys;
    while todo != {}
      invariant todo <= h.Keys
      invariant forall c :: c in best ==> Candidate(h, Key(best[c], c), today)
      invariant forall k :: Candidate(h, k, today) && k !in todo ==> k.code in best && k.date <= best[k.code]
      invariant forall c :: c in best ==> exists k :: Candidate(h, k, today) && k.code == c
      decreases todo
    {
      var k :| k in todo;
      if Candidate(h, k, today) && (k.code !in best || best[k.code] < k.date) {
        best := best[k.code := k.date];
      }
      todo := todo - {k};
    }
    rates := map c | c in best :: h[Key(best[c], c)].cbRate;
    forall c | c in rates
      ensures LatestBefore(h, c, today, best[c])
    {
    }
  }

  /** The per-day memo of yesterday's rates. */
  datatype Memo = NoMemo | Memo(date: int, rates: map<Code, int>)

  /** `getYesterdayRates` at instant `nowMs`: within one Tashkent day the first
      answer is kept and the table is not read again. */
  method GetYesterdayRates(h: Store, nowMs: int, memo: Memo) returns (rates: map<Code, int>, memo': Memo, queried: bool)
    ensures memo' == Memo(TashkentDay(nowMs), rates)
    ensures queried <==> !(memo.Memo? && memo.date == TashkentDay(nowMs))
    ensures !queried ==> rates == memo.rates && memo' == memo
    ensures queried ==> forall c :: c in rates <==> exists k :: Candidate(h, k, TashkentDay(nowMs)) && k.code == c
    ensures queried ==> forall c :: c in rates ==>
      exists d :: LatestBefore(h, c, TashkentDay(nowMs), d) && rates[c] == h[Key(d, c)].cbRate
  {
    var today := TashkentDay(nowMs);
    if memo.Memo? && memo.date == today {
      return memo.rates, memo, false;
    }
    rates := LatestRates(h, today);
    memo' := Memo(today, rates);
    queried := true;
  }
}
