/**
 The rate scraper's cache and page extraction: a per-currency snapshot kept
 for five minutes, the bank offer lists read off a currency page, and the
 fetch of one or of all currencies. The page itself is an input value; the
 HTTP request and the HTML selectors are not modelled.
 */
module Fetcher {
  import opened Common
  import opened Text
  import opened Currencies
  import opened Helpers

  /** Five minutes, in milliseconds. */
  const CacheTtl: int := 5 * 60 * 1000

  /** One bank's quote on one side of the market. */
  datatype Offer = Offer(bank: string, rate: int)

  /** What a currency page yields: the central-bank rate and the two bank lists.
      `buy` holds what banks pay for the currency, `sell` what they ask for it. */
  datatype Snapshot = Snapshot(cbRate: int, buy: seq<Offer>, sell: seq<Offer>)

  datatype Entry = Entry(data: Snapshot, ts: int)

  type Cache = map<Code, Entry>

  /** A cache entry is served while it is younger than the time-to-live. */
  predicate Fresh(e: Entry, now: int) {
    now - e.ts < CacheTtl
  }

  function GetCached(cache: Cache, code: Code, now: int): (r: Option<Snapshot>)
    ensures r.Some? ==> code in cache && r.value == cache[code].data
  {
    if code in cache && Fresh(cache[code], now) then Some(cache[code].data) else None
  }

  /** An entry written at time `ts` is served exactly while now < ts + 5 min,
      a clock earlier than `ts` included, and not at any later time; the
      entries of other codes play no part. */
  lemma GetCachedWindow(cache: Cache, code: Code, snap: Snapshot, ts: int, now: int)
    ensures GetCached(cache[code := Entry(snap, ts)], code, now).Some? <==> now < ts + 300000
    ensures GetCached(cache[code := Entry(snap, ts)], code, now).Some? ==>
      GetCached(cache[code := Entry(snap, ts)], code, now).value == snap
  {
  }

  /** Nothing is served for a code that was never stored. */
  lemma GetCachedMissing(cache: Cache, code: Code, now: int)
    requires code !in cache
    ensures GetCached(cache, code, now) == None
  {
  }

  /** Storing under one code leaves what is served for every other code unchanged. */
  lemma GetCachedOther(cache: Cache, code: Code, other: Code, e: Entry, now: int)
    requires other != code
    ensures GetCached(cache[code := e], other, now) == GetCached(cache, other, now)
  {
  }

  // ---------------------------------------------------------------------------
  // Page extraction

  /** The text of one bank row: its name cell and its rate cell. */
  datatype RawOffer = RawOffer(bankText: string, rateText: string)

  /** A point of the page's embedded chart: a day and the rate rounded to an integer. */
  datatype ChartPoint = ChartPoint(date: int, value: int)

  /** The parts of a currency page the scraper reads. */
  datatype Page = Page(cbText: string, buyRows: seq<RawOffer>, sellRows: seq<RawOffer>, chart: seq<ChartPoint>)

  datatype FetchError = RequestFailed

  function ReadOffer(row: RawOffer): Offer {
    Offer(Trim(row.bankText), ParseRate(row.rateText))
  }

  predicate Kept(o: Offer) {
    o.rate > 0 && o.bank != ""
  }

  /** The offers of a bank list, in page order, keeping rows with a positive rate and a name. */
  function ExtractOffers(rows: seq<RawOffer>): (offers: seq<Offer>)
    ensures |offers| <= |rows|
    decreases |rows|
  {
    if |rows| == 0 then []
    else
      var o := ReadOffer(rows[0]);
      var rest := ExtractOffers(rows[1..]);
      if Kept(o) then [o] + rest else rest
  }

  /** Extraction works row by row: the offers of two consecutive stretches of
      rows are the offers of the first followed by those of the second. */
  lemma {:induction false} ExtractOffersAppend(a: seq<RawOffer>, b: seq<RawOffer>)
    ensures ExtractOffers(a + b) == ExtractOffers(a) + ExtractOffers(b)
    decreases |a|
  {
    if |a| == 0 {
      assert a + b == b;
    } else {
      assert (a + b)[1..] == a[1..] + b;
      ExtractOffersAppend(a[1..], b);
    }
  }

  /** A single row contributes its offer exactly when the offer is kept. */
  lemma ExtractOffersOne(row: RawOffer)
    ensures ExtractOffers([row]) == if Kept(ReadOffer(row)) then [ReadOffer(row)] else []
  {
  }

  /** Some row of `rows` reads as `o`. */
  predicate ReadsAs(rows: seq<RawOffer>, o: Offer) {
    exists i :: 0 <= i < |rows| && ReadOffer(rows[i]) == o
  }

  lemma ReadsAsCons(rows: seq<RawOffer>, o: Offer)
    requires |rows| > 0
    ensures ReadsAs(rows, o) <==> ReadOffer(rows[0]) == o || ReadsAs(rows[1..], o)
  {
    ReadsAsTail(rows, o);
    ReadsAsSplit(rows, o);
  }

  lemma ReadsAsTail(rows: seq<RawOffer>, o: Offer)
    requires |rows| > 0
    ensures ReadOffer(rows[0]) == o || ReadsAs(rows[1..], o) ==> ReadsAs(rows, o)
  {
    if ReadsAs(rows[1..], o) {
      var i :| 0 <= i < |rows[1..]| && ReadOffer(rows[1..][i]) == o;
      assert rows[1..][i] == rows[i + 1];
    }
  }

  lemma ReadsAsSplit(rows: seq<RawOffer>, o: Offer)
    requires |rows| > 0
    ensures ReadsAs(rows, o) ==> ReadOffer(rows[0]) == o || ReadsAs(rows[1..], o)
  {
    if ReadsAs(rows, o) {
      var i :| 0 <= i < |rows| && ReadOffer(rows[i]) == o;
      if i > 0 {
        var tail := rows[1..];
        assert tail[i - 1] == rows[i];
        assert 0 <= i - 1 < |tail| && ReadOffer(tail[i - 1]) == o;
      }
    }
  }

  /** An offer is extracted exactly when some row reads as it and it is kept. */
  lemma {:induction false} ExtractOffersMembers(rows: seq<RawOffer>, o: Offer)
    ensures o in ExtractOffers(rows) <==> Kept(o) && exists i :: 0 <= i < |rows| && ReadOffer(rows[i]) == o
    decreases |rows|
  {
    if |rows| > 0 {
      ExtractOffersMembers(rows[1..], o);
      ReadsAsCons(rows, o);
      assert ReadsAs(rows, o) <==> exists i :: 0 <= i < |rows| && ReadOffer(rows[i]) == o;
    }
  }

  function Scrape(page: Page): (s: Snapshot)
    ensures s.buy == ExtractOffers(page.buyRows) && s.sell == ExtractOffers(page.sellRows)
  {
    Snapshot(ParseRate(page.cbText), ExtractOffers(page.buyRows), ExtractOffers(page.sellRows))
  }

  // ---------------------------------------------------------------------------
  // Fetching one currency

  /** The history write a fresh fetch hands to the store: the snapshot and the page's chart. */
  datatype PersistJob = PersistJob(code: Code, snapshot: Snapshot, chart: seq<ChartPoint>)

  /** The outcome of a fetch: the answer, the cache afterwards, whether the page
      was requested, and the history write started (if any). */
  datatype Fetched = Fetched(result: Result<Snapshot, FetchError>, cache: Cache, requested: bool, persist: Option<PersistJob>)

  /** `page` is what requesting the currency's page would give; it is only
      consulted on a cache miss. */
  function FetchCurrency(cache: Cache, code: Code, now: int, page: Result<Page, FetchError>): (f: Fetched)
    ensures f.requested <==> GetCached(cache, code, now).None?
    ensures f.persist.Some? ==> f.persist.value.code == code && f.result == Ok(f.persist.value.snapshot)
  {
    match GetCached(cache, code, now)
    case Some(snap) => Fetched(Ok(snap), cache, false, None)
    case None =>
      match page
      case Err(e) => Fetched(Err(e), cache, true, None)
      case Ok(p) =>
        var snap := Scrape(p);
        Fetched(Ok(snap), cache[code := Entry(snap, now)], true, Some(PersistJob(code, snap, p.chart)))
  }

  /** A hit answers with the cached snapshot, whatever the page would have said,
      and changes nothing. */
  lemma FetchHit(cache: Cache, code: Code, now: int, page: Result<Page, FetchError>)
    requires GetCached(cache, code, now).Some?
    ensures var f := FetchCurrency(cache, code, now, page);
      && f.result == Ok(cache[code].data) && f.cache == cache && f.persist.None?
      && f == FetchCurrency(cache, code, now, Err(RequestFailed))
  {
  }

  /** A successful miss stores the page's snapshot stamped `now` and starts its history write. */
  lemma FetchMissOk(cache: Cache, code: Code, now: int, p: Page)
    requires GetCached(cache, code, now).None?
    ensures var f := FetchCurrency(cache, code, now, Ok(p));
      && f.result == Ok(Scrape(p))
      && f.cache == cache[code := Entry(Scrape(p), now)]
      && f.persist == Some(PersistJob(code, Scrape(p), p.chart))
  {
  }

  /** A failed miss reports the failure and leaves the cache as it was. */
  lemma FetchMissErr(cache: Cache, code: Code, now: int, e: FetchError)
    requires GetCached(cache, code, now).None?
    ensures var f := FetchCurrency(cache, code, now, Err(e));
      f.result == Err(e) && f.cache == cache && f.persist.None?
  {
  }

  /** A fetch touches only its own code's entry. */
  lemma FetchCurrencyLocal(cache: Cache, code: Code, now: int, page: Result<Page, FetchError>)
    ensures var f := FetchCurrency(cache, code, now, page);
      f.cache == cache || (f.cache == cache[code := Entry(f.result.value, now)] && f.result.Ok?)
  {
  }

  /** After any successful fetch, the same answer is served from the cache for
      the rest of the five minutes, without a request. */
  lemma FetchThenServed(cache: Cache, code: Code, now: int, page: Result<Page, FetchError>, later: int)
    requires FetchCurrency(cache, code, now, page).result.Ok?
    requires now <= later < now + CacheTtl
    requires GetCached(cache, code, now).None?
    ensures var f := FetchCurrency(cache, code, now, page);
      var g := FetchCurrency(f.cache, code, later, Err(RequestFailed));
      !g.requested && g.result == f.result
  {
  }

  // ---------------------------------------------------------------------------
  // Fetching every currency

  /** The combined state after fetching a list of codes one after another. */
  datatype Batch = Batch(cache: Cache, results: map<Code, Result<Snapshot, FetchError>>, jobs: seq<PersistJob>)

  function FetchEach(cache: Cache, now: int, codes: seq<Code>, pages: Code -> Result<Page, FetchError>): (b: Batch)
    ensures b.results.Keys == set c | c in codes
    decreases |codes|
  {
    if |codes| == 0 then Batch(cache, map[], [])
    else
      var f := FetchCurrency(cache, codes[0], now, pages(codes[0]));
      var rest := FetchEach(f.cache, now, codes[1..], pages);
      Batch(rest.cache, rest.results[codes[0] := f.result],
            (if f.persist.Some? then [f.persist.value] else []) + rest.jobs)
  }

  /** Two caches agree on the entry for `c`. */
  predicate OwnEntry(a: Cache, b: Cache, c: Code) {
    (c in a <==> c in b) && (c in b ==> a[c] == b[c])
  }

  /** A fetch of one code sees the same answer and leaves the same entry for
      that code whatever another code's entry holds. */
  lemma FetchCurrencyIndependent(cache: Cache, d: Code, e: Entry, c: Code, now: int, page: Result<Page, FetchError>)
    requires c != d
    ensures FetchCurrency(cache[d := e], c, now, page).result == FetchCurrency(cache, c, now, page).result
    ensures OwnEntry(FetchCurrency(cache[d := e], c, now, page).cache, FetchCurrency(cache, c, now, page).cache, c)
    ensures OwnEntry(FetchCurrency(cache, c, now, page).cache, cache, d)
  {
    GetCachedOther(cache, d, c, e, now);
  }

  predicate Distinct(codes: seq<Code>) {
    forall i, j :: 0 <= i < j < |codes| ==> codes[i] != codes[j]
  }

  lemma DistinctTail(codes: seq<Code>)
    requires |codes| > 0 && Distinct(codes)
    ensures Distinct(codes[1..]) && codes[0] !in codes[1..]
  {
  }

  /** Fetching a list of codes leaves the entry of a code not in the list as it was. */
  lemma {:induction false} FetchEachOthers(cache: Cache, now: int, codes: seq<Code>, pages: Code -> Result<Page, FetchError>, c: Code)
    requires c !in codes
    ensures OwnEntry(FetchEach(cache, now, codes, pages).cache, cache, c)
    decreases |codes|
  {
    if |codes| > 0 {
      var f := FetchCurrency(cache, codes[0], now, pages(codes[0]));
      FetchCurrencyLocal(cache, codes[0], now, pages(codes[0]));
      assert c !in codes[1..] && c != codes[0];
      FetchEachOthers(f.cache, now, codes[1..], pages, c);
    }
  }

  /** Fetching codes one after another gives each listed code the answer it
      would get alone. */
  lemma {:induction false} FetchEachResult(cache: Cache, now: int, codes: seq<Code>, pages: Code -> Result<Page, FetchError>, c: Code)
    requires Distinct(codes) && c in codes
    ensures FetchEach(cache, now, codes, pages).results[c] == FetchCurrency(cache, c, now, pages(c)).result
    decreases |codes|
  {
    var c0 := codes[0];
    if c != c0 {
      var f := FetchCurrency(cache, c0, now, pages(c0));
      DistinctTail(codes);
      assert c in codes[1..] by {
        assert codes == [c0] + codes[1..];
      }
      FetchEachResult(f.cache, now, codes[1..], pages, c);
      FetchCurrencyLocal(cache, c0, now, pages(c0));
      if f.cache != cache {
        FetchCurrencyIndependent(cache, c0, Entry(f.result.value, now), c, now, pages(c));
      }
    }
  }

  /** ... and leaves each listed code's cache entry as its own fetch would. */
  lemma {:induction false} FetchEachEntry(cache: Cache, now: int, codes: seq<Code>, pages: Code -> Result<Page, FetchError>, c: Code)
    requires Distinct(codes) && c in codes
    ensures OwnEntry(FetchEach(cache, now, codes, pages).cache, FetchCurrency(cache, c, now, pages(c)).cache, c)
    decreases |codes|
  {
    var c0 := codes[0];
    var f := FetchCurrency(cache, c0, now, pages(c0));
    DistinctTail(codes);
    if c == c0 {
      FetchEachOthers(f.cache, now, codes[1..], pages, c);
    } else {
      assert c in codes[1..] by {
        assert codes == [c0] + codes[1..];
      }
      FetchEachEntry(f.cache, now, codes[1..], pages, c);
      FetchCurrencyLocal(cache, c0, now, pages(c0));
      if f.cache != cache {
        FetchCurrencyIndependent(cache, c0, Entry(f.result.value, now), c, now, pages(c));
      }
    }
  }

  /** What `fetchAllCurrencies` resolves to: every code's snapshot, or the first failure. */
  datatype AllFetched = AllFetched(result: Result<map<Code, Snapshot>, FetchError>, cache: Cache, jobs: seq<PersistJob>)

  function FirstError(codes: seq<Code>, results: map<Code, Result<Snapshot, FetchError>>): (e: Option<FetchError>)
    requires forall c :: c in codes ==> c in results
    ensures e.None? <==> forall c :: c in codes ==> results[c].Ok?
    ensures e.Some? ==> exists c :: c in codes && results[c] == Err(e.value)
    decreases |codes|
  {
    if |codes| == 0 then None
    else if results[codes[0]].Err? then Some(results[codes[0]].error)
    else FirstError(codes[1..], results)
  }

  /** The combined answer from the per-code answers: every snapshot, or the
      first failure in list order. */
  function Gather(codes: seq<Code>, results: map<Code, Result<Snapshot, FetchError>>): (r: Result<map<Code, Snapshot>, FetchError>)
    requires forall c :: c in codes ==> c in results
  {
    var err := FirstError(codes, results);
    if err.Some? then Err(err.value)
    else Ok(map c | c in codes :: results[c].value)
  }

  /** Gathering succeeds exactly when every answer does, keeps each answer's
      snapshot, and otherwise reports one of the failures. */
  lemma GatherSpec(codes: seq<Code>, results: map<Code, Result<Snapshot, FetchError>>)
    requires forall c :: c in codes ==> c in results
    ensures var r := Gather(codes, results);
      && (r.Ok? <==> forall c :: c in codes ==> results[c].Ok?)
      && (r.Ok? ==> forall c :: c in codes ==> c in r.value && Ok(r.value[c]) == results[c])
      && (r.Err? ==> exists c :: c in codes && results[c] == Err(r.error))
  {
  }

  /** All five pages are requested (or served from the cache); every fetch runs
      to completion and updates the cache even when another one fails. */
  function FetchAll(cache: Cache, now: int, pages: Code -> Result<Page, FetchError>): (r: AllFetched)
  {
    var b := FetchEach(cache, now, Codes, pages);
    AllFetched(Gather(Codes, b.results), b.cache, b.jobs)
  }

  lemma EveryCodeListed()
    ensures forall c: Code :: c in Codes
    ensures Distinct(Codes)
  {
    forall c: Code ensures c in Codes {
      CodesComplete(c);
    }
  }

  /** The combined answer succeeds exactly when each currency's fetch would succeed
      on its own; it is then defined on every code, with that code's own answer. */
  lemma FetchAllSpec(cache: Cache, now: int, pages: Code -> Result<Page, FetchError>)
    ensures var r := FetchAll(cache, now, pages);
      && (r.result.Ok? <==> forall c: Code :: FetchCurrency(cache, c, now, pages(c)).result.Ok?)
      && (r.result.Ok? ==> forall c: Code :: c in r.result.value && Ok(r.result.value[c]) == FetchCurrency(cache, c, now, pages(c)).result)
      && (r.result.Err? ==> exists c: Code :: FetchCurrency(cache, c, now, pages(c)).result == Err(r.result.error))
  {
    EveryCodeListed();
    FetchGather(cache, now, Codes, pages);
  }

  /** Fetching every code of a list without repeats and gathering the answers
      is the same as gathering each code's own fetch. */
  lemma FetchGather(cache: Cache, now: int, codes: seq<Code>, pages: Code -> Result<Page, FetchError>)
    requires Distinct(codes) && forall c: Code :: c in codes
    ensures var r := Gather(codes, FetchEach(cache, now, codes, pages).results);
      && (r.Ok? <==> forall c: Code :: FetchCurrency(cache, c, now, pages(c)).result.Ok?)
      && (r.Ok? ==> forall c: Code :: c in r.value && Ok(r.value[c]) == FetchCurrency(cache, c, now, pages(c)).result)
      && (r.Err? ==> exists c: Code :: FetchCurrency(cache, c, now, pages(c)).result == Err(r.error))
  {
    var b := FetchEach(cache, now, codes, pages);
    forall c: Code ensures b.results[c] == FetchCurrency(cache, c, now, pages(c)).result {
      FetchEachResult(cache, now, codes, pages, c);
    }
    GatherSpec(codes, b.results);
  }

  /** Even when the combined answer fails, every code's cache entry is the one
      its own fetch would leave. */
  lemma FetchAllCache(cache: Cache, now: int, pages: Code -> Result<Page, FetchError>, c: Code)
    ensures OwnEntry(FetchAll(cache, now, pages).cache, FetchCurrency(cache, c, now, pages(c)).cache, c)
  {
    EveryCodeListed();
    FetchEachEntry(cache, now, Codes, pages, c);
  }
}
