/**
 What the reply texts are computed from: the change arrow next to the
 central-bank rate, the best offers, the numbered bank lists, the spread
 table with its medals, and the trend arrows of the history view. Language
 strings, dates and Markdown are left to the caller; each view here is the
 structure the text is printed from.
 */
module Formatters {
  import opened Common
  import opened Currencies
  import opened Fetcher
  import opened History

  // ---------------------------------------------------------------------------
  // Change arrow

  datatype Arrow = NoArrow | Up | Down

  /** The arrow after today's central-bank rate. A previous rate that is
      missing or 0, or a current rate of 0, gives no arrow. */
  function ChangeArrow(current: int, previous: Option<int>): (a: Arrow)
    ensures previous.None? || previous == Some(0) || current == 0 ==> a == NoArrow
    ensures previous.Some? && previous.value != 0 && current != 0 ==>
      (a == Up <==> current > previous.value) && (a == Down <==> current < previous.value)
  {
    if previous.None? || previous.value == 0 || current == 0 then NoArrow
    else if current > previous.value then Up
    else if current < previous.value then Down
    else NoArrow
  }

  /** Swapping the two rates swaps up and down; equal rates never get an arrow. */
  lemma ChangeArrowSwap(a: int, b: int)
    requires a != 0 && b != 0
    ensures ChangeArrow(a, Some(b)) == Up <==> ChangeArrow(b, Some(a)) == Down
    ensures ChangeArrow(a, Some(b)) == NoArrow <==> a == b
  {
  }

  // ---------------------------------------------------------------------------
  // Best offers

  /** The first offer of a list: the one shown as the best. */
  function Best(offers: seq<Offer>): (o: Option<Offer>)
    ensures o.Some? <==> |offers| > 0
    ensures o.Some? ==> o.value == offers[0]
  {
    if |offers| > 0 then Some(offers[0]) else None
  }

  /** The central-bank line: the rate and its arrow. */
  datatype CbLine = CbLine(rate: int, arrow: Arrow)

  /** A currency card. The user's "buy" price is the bank's sell offer and the
      user's "sell" price the bank's buy offer. */
  datatype Card = Card(cb: Option<CbLine>, userBuy: Option<Offer>, userSell: Option<Offer>)

  function CurrencyCard(data: Snapshot, prevRate: Option<int>): (c: Card)
    ensures c.cb.Some? <==> data.cbRate > 0
    ensures c.cb.Some? ==> c.cb.value == CbLine(data.cbRate, ChangeArrow(data.cbRate, prevRate))
    ensures c.userBuy == Best(data.sell) && c.userSell == Best(data.buy)
  {
    Card(if data.cbRate > 0 then Some(CbLine(data.cbRate, ChangeArrow(data.cbRate, prevRate))) else None,
         Best(data.sell), Best(data.buy))
  }

  /** The best offer of a scraped list is the first row of the page that has a
      positive rate and a bank name. */
  lemma {:induction false} BestIsFirstKept(rows: seq<RawOffer>, i: nat)
    requires i < |rows| && Kept(ReadOffer(rows[i]))
    requires forall j :: 0 <= j < i ==> !Kept(ReadOffer(rows[j]))
    ensures Best(ExtractOffers(rows)) == Some(ReadOffer(rows[i]))
    decreases i
  {
    if i > 0 {
      assert ExtractOffers(rows) == ExtractOffers(rows[1..]) by {
        assert !Kept(ReadOffer(rows[0]));
      }
      forall j | 0 <= j < i - 1
        ensures !Kept(ReadOffer(rows[1..][j]))
      {
        assert rows[1..][j] == rows[j + 1];
      }
      BestIsFirstKept(rows[1..], i - 1);
    }
  }

  /** One block of the all-currencies message. */
  datatype Block = Block(code: Code, cb: Option<CbLine>, userBuy: Option<Offer>, userSell: Option<Offer>)

  /** The arrow of the all-currencies message: none at all without yesterday's
      rates, otherwise against the currency's own previous rate (if any). */
  function PrevFor(prevRates: Option<map<Code, int>>, code: Code): Option<int> {
    if prevRates.Some? && code in prevRates.value then Some(prevRates.value[code]) else None
  }

  function AllRates(allData: map<Code, Snapshot>, prevRates: Option<map<Code, int>>): (blocks: seq<Block>)
    requires forall c: Code :: c in allData
    ensures |blocks| == |Codes|
    ensures forall i :: 0 <= i < |blocks| ==> blocks[i].code == Codes[i]
  {
    seq(|Codes|, i requires 0 <= i < |Codes| =>
      var c := CurrencyCard(allData[Codes[i]], PrevFor(prevRates, Codes[i]));
      Block(Codes[i], c.cb, c.userBuy, c.userSell))
  }

  /** Each block says what the currency's own card says, and without
      yesterday's rates no block carries an arrow. */
  lemma AllRatesBlocks(allData: map<Code, Snapshot>, prevRates: Option<map<Code, int>>, i: nat)
    requires forall c: Code :: c in allData
    requires i < |Codes|
    ensures var b := AllRates(allData, prevRates)[i];
      var card := CurrencyCard(allData[Codes[i]], PrevFor(prevRates, Codes[i]));
      b.cb == card.cb && b.userBuy == card.userBuy && b.userSell == card.userSell
    ensures prevRates.None? ==> var b := AllRates(allData, prevRates)[i];
      b.cb.Some? ==> b.cb.value.arrow == NoArrow
  {
  }

  // ---------------------------------------------------------------------------
  // Bank rating

  datatype Numbered = Numbered(n: nat, offer: Offer)

  /** A side of the bank rating: every offer numbered from 1, or "no data". */
  datatype Listing = NoData | Listed(entries: seq<Numbered>)

  function Number(offers: seq<Offer>): (l: Listing)
    ensures l.NoData? <==> |offers| == 0
    ensures l.Listed? ==> |l.entries| == |offers| && forall i :: 0 <= i < |offers| ==> l.entries[i].n == i + 1
  {
    if |offers| == 0 then NoData else Listed(seq(|offers|, i requires 0 <= i < |offers| => Numbered(i + 1, offers[i])))
  }

  function Unnumber(l: Listing): seq<Offer> {
    match l
    case NoData => []
    case Listed(entries) => seq(|entries|, i requires 0 <= i < |entries| => entries[i].offer)
  }

  /** The numbered list holds exactly the offers, in list order. */
  lemma NumberRoundTrip(offers: seq<Offer>)
    ensures Unnumber(Number(offers)) == offers
  {
  }

  /** The bank rating: the user's buy side lists the banks' sell offers, the
      user's sell side the banks' buy offers. */
  datatype Rating = Rating(userBuy: Listing, userSell: Listing)

  function BankRating(data: Snapshot): (r: Rating)
    ensures Unnumber(r.userBuy) == data.sell && Unnumber(r.userSell) == data.buy
  {
    NumberRoundTrip(data.sell);
    NumberRoundTrip(data.buy);
    Rating(Number(data.sell), Number(data.buy))
  }

  // ---------------------------------------------------------------------------
  // Spread

  /** What is known of one bank: its sell-list rate (the user's buy price) and
      its buy-list rate (the user's sell price). */
  datatype Quote = Quote(userBuy: Option<int>, userSell: Option<int>)

  /** The merge table: banks in first-insertion order and their quotes. */
  datatype Table = Table(order: seq<string>, quotes: map<string, Quote>)

  predicate WellFormed(t: Table) {
    (forall b :: b in t.order ==> b in t.quotes)
    && (forall b :: b in t.quotes ==> b in t.order)
    && forall i, j :: 0 <= i < j < |t.order| ==> t.order[i] != t.order[j]
  }

  function Enter(t: Table, bank: string, q: Quote): (r: Table)
    ensures WellFormed(t) ==> WellFormed(r)
  {
    Table(if bank in t.quotes then t.order else t.order + [bank], t.quotes[bank := q])
  }

  /** Banks' buy offers: each replaces the bank's entry by one with only the user's sell price. */
  function AddBuys(t: Table, buy: seq<Offer>): (r: Table)
    ensures WellFormed(t) ==> WellFormed(r)
    decreases |buy|
  {
    if |buy| == 0 then t
    else
      var o := buy[|buy| - 1];
      Enter(AddBuys(t, buy[..|buy| - 1]), o.bank, Quote(None, Some(o.rate)))
  }

  /** Banks' sell offers: each sets the user's buy price of an existing entry, or adds one. */
  function AddSells(t: Table, sell: seq<Offer>): (r: Table)
    ensures WellFormed(t) ==> WellFormed(r)
    decreases |sell|
  {
    if |sell| == 0 then t
    else
      var o := sell[|sell| - 1];
      var t' := AddSells(t, sell[..|sell| - 1]);
      if o.bank in t'.quotes then Enter(t', o.bank, t'.quotes[o.bank].(userBuy := Some(o.rate)))
      else Enter(t', o.bank, Quote(Some(o.rate), None))
  }

  function Merge(buy: seq<Offer>, sell: seq<Offer>): (t: Table)
    ensures WellFormed(t)
  {
    AddSells(AddBuys(Table([], map[]), buy), sell)
  }

  /** The rate of the last offer of `bank` in a list: the one that survives in the table. */
  function LastRate(offers: seq<Offer>, bank: string): (r: Option<int>)
    ensures r.Some? <==> exists i :: 0 <= i < |offers| && offers[i].bank == bank
    decreases |offers|
  {
    if |offers| == 0 then None
    else if offers[|offers| - 1].bank == bank then Some(offers[|offers| - 1].rate)
    else LastRate(offers[..|offers| - 1], bank)
  }

  lemma {:induction false} AddBuysQuotes(buy: seq<Offer>, bank: string)
    ensures var t := AddBuys(Table([], map[]), buy);
      (bank in t.quotes <==> LastRate(buy, bank).Some?)
      && (bank in t.quotes ==> t.quotes[bank] == Quote(None, LastRate(buy, bank)))
    decreases |buy|
  {
    if |buy| > 0 {
      AddBuysQuotes(buy[..|buy| - 1], bank);
    }
  }

  lemma {:induction false} AddSellsQuotes(t: Table, sell: seq<Offer>, bank: string)
    ensures var r := AddSells(t, sell);
      && (bank in r.quotes <==> bank in t.quotes || LastRate(sell, bank).Some?)
      && (bank in r.quotes && LastRate(sell, bank).None? ==> r.quotes[bank] == t.quotes[bank])
      && (LastRate(sell, bank).Some? ==>
            r.quotes[bank] == Quote(LastRate(sell, bank), if bank in t.quotes then t.quotes[bank].userSell else None))
    decreases |sell|
  {
    if |sell| > 0 {
      AddSellsQuotes(t, sell[..|sell| - 1], bank);
    }
  }

  /** The merge table records, for every bank named in either list, the last
      rate it quotes in each list. */
  lemma MergeQuotes(buy: seq<Offer>, sell: seq<Offer>, bank: string)
    ensures var t := Merge(buy, sell);
      && (bank in t.quotes <==> LastRate(buy, bank).Some? || LastRate(sell, bank).Some?)
      && (bank in t.quotes ==> t.quotes[bank] == Quote(LastRate(sell, bank), LastRate(buy, bank)))
  {
    AddBuysQuotes(buy, bank);
    AddSellsQuotes(AddBuys(Table([], map[]), buy), sell, bank);
  }

  /** A row of the spread table; `spread` is the user's buy price minus sell price. */
  datatype SpreadEntry = SpreadEntry(bank: string, userBuy: int, userSell: int, spread: int)

  /** A quote enters the table only when both prices are present and non-zero. */
  predicate Complete(q: Quote) {
    q.userBuy.Some? && q.userBuy.value != 0 && q.userSell.Some? && q.userSell.value != 0
  }

  function EntryOf(bank: string, q: Quote): SpreadEntry
    requires Complete(q)
  {
    SpreadEntry(bank, q.userBuy.value, q.userSell.value, q.userBuy.value - q.userSell.value)
  }

  /** The complete quotes of the table, in the table's order. */
  function Entries(order: seq<string>, quotes: map<string, Quote>): (es: seq<SpreadEntry>)
    requires forall b :: b in order ==> b in quotes
    ensures forall e :: e in es ==> e.bank in order && Complete(quotes[e.bank]) && e == EntryOf(e.bank, quotes[e.bank])
    ensures forall b :: b in order && Complete(quotes[b]) ==> EntryOf(b, quotes[b]) in es
    decreases |order|
  {
    if |order| == 0 then []
    else
      var rest := Entries(order[1..], quotes);
      if Complete(quotes[order[0]]) then [EntryOf(order[0], quotes[order[0]])] + rest else rest
  }

  predicate Ascending(es: seq<SpreadEntry>) {
    forall i, j :: 0 <= i < j < |es| ==> es[i].spread <= es[j].spread
  }

  /** Puts `e` in front of the first entry whose spread is not smaller. */
  function Insert(e: SpreadEntry, sorted: seq<SpreadEntry>): (r: seq<SpreadEntry>)
    ensures multiset(r) == multiset(sorted) + multiset{e}
    decreases |sorted|
  {
    if |sorted| == 0 || e.spread <= sorted[0].spread then [e] + sorted
    else
      var tail := Insert(e, sorted[1..]);
      assert sorted == [sorted[0]] + sorted[1..];
      [sorted[0]] + tail
  }

  lemma {:induction false} InsertAscending(e: SpreadEntry, sorted: seq<SpreadEntry>)
    requires Ascending(sorted)
    ensures Ascending(Insert(e, sorted))
    decreases |sorted|
  {
    if |sorted| > 0 && e.spread > sorted[0].spread {
      InsertAscending(e, sorted[1..]);
      var r := Insert(e, sorted);
      var tail := Insert(e, sorted[1..]);
      assert r == [sorted[0]] + tail;
      forall k | 0 <= k < |tail|
        ensures sorted[0].spread <= tail[k].spread
      {
        assert tail[k] in multiset(tail);
        assert tail[k] in multiset(sorted[1..]) + multiset{e};
        if tail[k] != e {
          assert tail[k] in sorted[1..];
        }
      }
    }
  }

  /** Insertion sort by ascending spread; equal spreads keep their list order. */
  function SortBySpread(es: seq<SpreadEntry>): (r: seq<SpreadEntry>)
    ensures multiset(r) == multiset(es)
    decreases |es|
  {
    if |es| == 0 then []
    else
      assert es == [es[0]] + es[1..];
      Insert(es[0], SortBySpread(es[1..]))
  }

  lemma {:induction false} SortAscending(es: seq<SpreadEntry>)
    ensures Ascending(SortBySpread(es))
    decreases |es|
  {
    if |es| > 0 {
      SortAscending(es[1..]);
      InsertAscending(es[0], SortBySpread(es[1..]));
    }
  }

  /** The rank mark of the i-th entry (from 0): three medals, then "i+1.". */
  datatype Prefix = Gold | Silver | Bronze | Place(n: nat)

  function PrefixOf(i: nat): (p: Prefix)
    ensures i < 3 <==> !p.Place?
    ensures p.Place? ==> p.n == i + 1
  {
    if i == 0 then Gold else if i == 1 then Silver else if i == 2 then Bronze else Place(i + 1)
  }

  datatype Ranked = Ranked(prefix: Prefix, entry: SpreadEntry)

  datatype SpreadView = NoSpread | Spreads(rows: seq<Ranked>)

  predicate Lists(rows: seq<Ranked>, e: SpreadEntry) {
    exists i :: 0 <= i < |rows| && rows[i].entry == e
  }

  /** The entries of the spread table before ranking: complete quotes of the
      merge table, sorted by spread. */
  function SpreadRows(data: Snapshot): seq<SpreadEntry> {
    var t := Merge(data.buy, data.sell);
    SortBySpread(Entries(t.order, t.quotes))
  }

  function SpreadTable(data: Snapshot): (v: SpreadView)
    ensures v.NoSpread? <==> |SpreadRows(data)| == 0
    ensures v.Spreads? ==> |v.rows| == |SpreadRows(data)|
    ensures v.Spreads? ==> forall i :: 0 <= i < |v.rows| ==> v.rows[i] == Ranked(PrefixOf(i), SpreadRows(data)[i])
  {
    var sorted := SpreadRows(data);
    if |sorted| == 0 then NoSpread
    else Spreads(seq(|sorted|, i requires 0 <= i < |sorted| => Ranked(PrefixOf(i), sorted[i])))
  }

  /** A bank quotes both sides: its last rate in the sell list (the user's buy
      price) and in the buy list (the user's sell price) are present and non-zero. */
  predicate Quoted(data: Snapshot, bank: string) {
    var buy := LastRate(data.sell, bank);
    var sell := LastRate(data.buy, bank);
    buy.Some? && buy.value != 0 && sell.Some? && sell.value != 0
  }

  function QuotedEntry(data: Snapshot, bank: string): SpreadEntry
    requires Quoted(data, bank)
  {
    var buy := LastRate(data.sell, bank).value;
    var sell := LastRate(data.buy, bank).value;
    SpreadEntry(bank, buy, sell, buy - sell)
  }

  /** The spread rows go by ascending spread. */
  lemma SpreadRowsAscending(data: Snapshot)
    ensures Ascending(SpreadRows(data))
  {
    var t := Merge(data.buy, data.sell);
    SortAscending(Entries(t.order, t.quotes));
  }

  /** Every bank quoting both sides has its row, built from its last rates. */
  lemma SpreadRowsComplete(data: Snapshot, bank: string)
    requires Quoted(data, bank)
    ensures QuotedEntry(data, bank) in SpreadRows(data)
  {
    var t := Merge(data.buy, data.sell);
    var es := Entries(t.order, t.quotes);
    MergeQuotes(data.buy, data.sell, bank);
    assert QuotedEntry(data, bank) == EntryOf(bank, t.quotes[bank]);
    assert QuotedEntry(data, bank) in multiset(es);
  }

  /** Every row belongs to a bank quoting both sides and is built from its last rates. */
  lemma SpreadRowsSound(data: Snapshot, e: SpreadEntry)
    requires e in SpreadRows(data)
    ensures Quoted(data, e.bank) && e == QuotedEntry(data, e.bank)
  {
    var t := Merge(data.buy, data.sell);
    var es := Entries(t.order, t.quotes);
    assert e in multiset(SortBySpread(es));
    assert e in es;
    MergeQuotes(data.buy, data.sell, e.bank);
  }

  /** Each bank has at most one row. */
  lemma SpreadRowsOnce(data: Snapshot, i: nat, j: nat)
    requires i < j < |SpreadRows(data)|
    ensures SpreadRows(data)[i].bank != SpreadRows(data)[j].bank
  {
    var t := Merge(data.buy, data.sell);
    var es := Entries(t.order, t.quotes);
    var sorted := SpreadRows(data);
    EntriesDistinct(t.order, t.quotes);
    assert multiset(sorted) == multiset(es);
    if sorted[i].bank == sorted[j].bank {
      SpreadRowsSound(data, sorted[i]);
      SpreadRowsSound(data, sorted[j]);
      assert sorted[i] == sorted[j];
      MultisetTwice(sorted, i, j);
      assert false;
    }
  }

  /** A value at two positions occurs at least twice. */
  lemma MultisetTwice(s: seq<SpreadEntry>, i: nat, j: nat)
    requires i < j < |s| && s[i] == s[j]
    ensures multiset(s)[s[i]] >= 2
  {
    assert s == s[..j] + [s[j]] + s[j + 1..];
    assert s[i] in s[..j];
  }

  /** Entries built from an order without repeats hold every value at most once. */
  lemma {:induction false} EntriesDistinct(order: seq<string>, quotes: map<string, Quote>)
    requires forall b :: b in order ==> b in quotes
    requires forall i, j :: 0 <= i < j < |order| ==> order[i] != order[j]
    ensures forall e :: multiset(Entries(order, quotes))[e] <= 1
    decreases |order|
  {
    if |order| > 0 {
      EntriesDistinct(order[1..], quotes);
      forall e ensures e in Entries(order[1..], quotes) ==> e.bank != order[0] {
        if e in Entries(order[1..], quotes) {
          var k :| 0 <= k < |order[1..]| && order[1..][k] == e.bank;
          assert order[k + 1] == e.bank;
        }
      }
    }
  }

  /** No spread table at all when no bank quotes both sides. */
  lemma NoSpreadWhenOneSided(data: Snapshot)
    requires |data.sell| == 0
    ensures SpreadTable(data) == NoSpread
  {
    if |SpreadRows(data)| > 0 {
      var e := SpreadRows(data)[0];
      SpreadRowsSound(data, e);
      assert false;
    }
  }

  // ---------------------------------------------------------------------------
  // History view

  datatype Trend = Rising | Falling | Steady | NoTrend

  /** The trend of row i against the next, older row: only when both cb_rates are positive. */
  function TrendAt(rows: seq<Dated>, i: nat): (t: Trend)
    requires i < |rows|
    ensures i + 1 == |rows| ==> t == NoTrend
  {
    if i + 1 < |rows| && rows[i + 1].row.cbRate > 0 && rows[i].row.cbRate > 0 then
      if rows[i].row.cbRate > rows[i + 1].row.cbRate then Rising
      else if rows[i].row.cbRate < rows[i + 1].row.cbRate then Falling
      else Steady
    else NoTrend
  }

  /** A bank line of the history view: the rate and, when present and non-empty, the bank. */
  datatype BankLine = BankLine(rate: int, bank: Option<string>)

  function BankLineOf(rate: Option<int>, name: Option<string>): (l: Option<BankLine>)
    ensures l.Some? <==> rate.Some? && rate.value > 0
    ensures l.Some? ==> l.value.rate == rate.value && (l.value.bank.Some? <==> name.Some? && name.value != "")
  {
    if rate.Some? && rate.value > 0 then
      Some(BankLine(rate.value, if name.Some? && name.value != "" then name else None))
    else None
  }

  datatype Day = Day(date: int, trend: Trend, cb: Option<int>, userBuy: Option<BankLine>, userSell: Option<BankLine>)

  /** The history view: one entry per row, newest first, or "no data". */
  datatype HistoryView = NoHistory | Days(days: seq<Day>)

  function HistoryOf(rows: seq<Dated>): (v: HistoryView)
    ensures v.NoHistory? <==> |rows| == 0
    ensures v.Days? ==> |v.days| == |rows| && forall i :: 0 <= i < |rows| ==> v.days[i].date == rows[i].date
    ensures v.Days? ==> forall i :: 0 <= i < |rows| ==>
      && (v.days[i].cb.Some? <==> rows[i].row.cbRate > 0)
      && (v.days[i].cb.Some? ==> v.days[i].cb.value == rows[i].row.cbRate)
      && v.days[i].userBuy == BankLineOf(rows[i].row.sellRate, rows[i].row.sellName)
      && v.days[i].userSell == BankLineOf(rows[i].row.buyRate, rows[i].row.buyName)
  {
    if |rows| == 0 then NoHistory
    else Days(seq(|rows|, i requires 0 <= i < |rows| =>
      var r := rows[i].row;
      Day(rows[i].date, TrendAt(rows, i), if r.cbRate > 0 then Some(r.cbRate) else None,
          BankLineOf(r.sellRate, r.sellName), BankLineOf(r.buyRate, r.buyName))))
  }

  /** The history arrows agree with the change arrow of the rate card: rising
      exactly when today's card would show up against the older day, falling
      exactly when it would show down, and the oldest row has no arrow. */
  lemma HistoryTrendsAgree(rows: seq<Dated>, i: nat)
    requires i < |rows|
    ensures var v := HistoryOf(rows);
      && v.Days?
      && (i + 1 == |rows| ==> v.days[i].trend == NoTrend)
      && (i + 1 < |rows| && rows[i].row.cbRate > 0 && rows[i + 1].row.cbRate > 0 ==>
           && (v.days[i].trend == Rising <==> ChangeArrow(rows[i].row.cbRate, Some(rows[i + 1].row.cbRate)) == Up)
           && (v.days[i].trend == Falling <==> ChangeArrow(rows[i].row.cbRate, Some(rows[i + 1].row.cbRate)) == Down)
           && (v.days[i].trend == Steady <==> rows[i].row.cbRate == rows[i + 1].row.cbRate))
      && (rows[i].row.cbRate <= 0 || (i + 1 < |rows| && rows[i + 1].row.cbRate <= 0) ==> v.days[i].trend == NoTrend)
  {
  }
}
