/**
 The button handler for ordinary users: subscribing to a currency at an hour,
 unsubscribing, and the four currency views with their navigation keyboard.
 Everything the handler reads from outside is a parameter: the clock, what
 the currency page would return, the administrator id.
 */
module Callbacks {
  import opened Common
  import opened Text
  import opened Currencies
  import opened Helpers
  import opened Fetcher
  import opened History
  import opened Formatters
  import opened Activity

  // ---------------------------------------------------------------------------
  // Subscriptions

  /** The primary key of the subscriptions table. */
  datatype SubKey = SubKey(user: int, code: Code)

  /** The subscriptions table: the hour each user gets each currency at. */
  type Subs = map<SubKey, int>

  /** The hours offered when subscribing, as two rows of four. */
  const HourRows: seq<seq<nat>> := [[6, 7, 8, 9], [10, 12, 18, 21]]

  function HourButton(code: Code, h: nat): Button {
    Button(HourLabel(h), CallbackData("subt", code) + "_" + NatToString(h))
  }

  function TimePicker(code: Code): (kb: Keyboard)
    ensures |kb| == |HourRows|
    ensures forall r :: 0 <= r < |kb| ==> |kb[r]| == |HourRows[r]|
  {
    seq(|HourRows|, r requires 0 <= r < |HourRows| =>
      seq(|HourRows[r]|, j requires 0 <= j < |HourRows[r]| => HourButton(code, HourRows[r][j])))
  }

  /** What the user is shown. */
  datatype Reply =
    | NoReply
    | Subscribed(code: Code, hour: int)
    | Unsubscribed(code: Code)
    | ChooseTime(code: Code, picker: Keyboard)
    | Shown(content: Content, nav: Keyboard)
    | Failed

  /** The body of a currency view. */
  datatype Content =
    | RateCard(card: Card)
    | BankList(rating: Rating)
    | SpreadList(spread: SpreadView)
    | HistoryList(history: HistoryView)

  datatype SubResult = SubResult(subs: Subs, log: Log, reply: Reply)

  /** `subt_CODE_h`: store hour h for (user, CODE), replacing an earlier hour.
      The hour is read by `parseInt` without a radix, so `0x9` is hour 9. A
      missing or unreadable hour is a database error: nothing changes and
      nothing is sent. */
  function Subscribe(subs: Subs, log: Log, user: int, code: Code, arg: Option<string>): (r: SubResult)
    ensures var hour := if arg.Some? then ParseIntAuto(arg.value) else None;
      && (hour.None? ==> r == SubResult(subs, log, NoReply))
      && (hour.Some? ==>
            && r.subs.Keys == subs.Keys + {SubKey(user, code)}
            && r.subs[SubKey(user, code)] == hour.value
            && (forall k :: k in subs && k != SubKey(user, code) ==> r.subs[k] == subs[k])
            && r.log == log.(subsAdded := log.subsAdded + 1)
            && r.reply == Subscribed(code, hour.value))
  {
    var hour := if arg.Some? then ParseIntAuto(arg.value) else None;
    match hour
    case None => SubResult(subs, log, NoReply)
    case Some(h) =>
      SubResult(subs[SubKey(user, code) := h], log.(subsAdded := log.subsAdded + 1), Subscribed(code, h))
  }

  /** `sub_CODE`: unsubscribe when subscribed, otherwise offer the hours. */
  function Toggle(subs: Subs, log: Log, user: int, code: Code): (r: SubResult)
    ensures SubKey(user, code) in subs ==>
      && r.subs == subs - {SubKey(user, code)}
      && r.log == log.(subsRemoved := log.subsRemoved + 1)
      && r.reply == Unsubscribed(code)
    ensures SubKey(user, code) !in subs ==> r == SubResult(subs, log, ChooseTime(code, TimePicker(code)))
  {
    var key := SubKey(user, code);
    if key in subs then SubResult(subs - {key}, log.(subsRemoved := log.subsRemoved + 1), Unsubscribed(code))
    else SubResult(subs, log, ChooseTime(code, TimePicker(code)))
  }

  /** An hour button's data splits into `subt`, the code and the hour, and the
      hour reads back as the number it was written from. */
  lemma HourButtonParses(code: Code, h: nat)
    ensures var b := HourButton(code, h);
      && !IsAdminData(b.data)
      && ParseCallback(b.data) == Callback("subt", Some(Name(code)), Some(NatToString(h)))
      && ParseIntAuto(NatToString(h)) == Some(h)
  {
    var digits := NatToString(h);
    assert '_' !in digits by {
      forall i | 0 <= i < |digits| ensures digits[i] != '_' {
        assert IsDigit(digits[i]);
      }
    }
    CallbackArgRoundTrip("subt", code, digits);
    NotAdminData("subt", code);
    assert digits == digits + "";
    ParseIntUnsigned(digits, "");
    ParseIntAutoNatToString(h);
    NatToStringValue(h);
    var d := CallbackData("subt", code);
    assert (d + "_" + digits)[..3] == d[..3];
    assert (d + "_" + digits)[..4] == d[..4];
  }

  /** Hand-written data can spell the hour in hexadecimal: `subt_CODE_0x9`
      subscribes at hour 9. */
  lemma SubscribeHexHour(subs: Subs, log: Log, user: int, code: Code, x: char, hs: string)
    requires x == 'x' || x == 'X'
    requires |hs| >= 1 && AllHexDigits(hs)
    ensures Subscribe(subs, log, user, code, Some(['0', x] + hs)).subs == subs[SubKey(user, code) := HexDigitsValue(hs)]
  {
    var arg := ['0', x] + hs;
    assert arg == ['0', x] + (hs + "");
    ParseIntAutoHex(x, hs, "");
    assert ParseIntAuto(arg) == Some(HexDigitsValue(hs) as int);
  }

  /** ... while `subt_CODE_0x` has no hour and changes nothing. */
  lemma SubscribeHexEmpty(subs: Subs, log: Log, user: int, code: Code, x: char)
    requires x == 'x' || x == 'X'
    ensures Subscribe(subs, log, user, code, Some(['0', x])) == SubResult(subs, log, NoReply)
  {
    ParseIntAutoHexEmpty(x, "");
    assert ['0', x] + "" == ['0', x];
  }

  /** Every hour button of the picker, pressed, subscribes the user to that
      currency at the hour it shows. */
  lemma PickerSubscribes(subs: Subs, log: Log, user: int, code: Code, r: nat, j: nat)
    requires r < |HourRows| && j < |HourRows[r]|
    ensures var b := TimePicker(code)[r][j];
      var cb := ParseCallback(b.data);
      && !IsAdminData(b.data)
      && cb.action == "subt" && cb.code == Some(Name(code))
      && b.caption == HourLabel(HourRows[r][j])
      && Subscribe(subs, log, user, code, cb.arg).subs == subs[SubKey(user, code) := HourRows[r][j]]
  {
    assert TimePicker(code)[r][j] == HourButton(code, HourRows[r][j]);
    HourButtonParses(code, HourRows[r][j]);
  }

  /** Pressing subscribe on an unsubscribed currency, then an hour, then
      subscribe again, leaves the table as it was and counts one subscription
      and one removal. */
  lemma ToggleRoundTrip(subs: Subs, log: Log, user: int, code: Code, r: nat, j: nat)
    requires SubKey(user, code) !in subs
    requires r < |HourRows| && j < |HourRows[r]|
    ensures var first := Toggle(subs, log, user, code);
      var pick := first.reply.picker[r][j];
      var chosen := Subscribe(first.subs, first.log, user, code, ParseCallback(pick.data).arg);
      var last := Toggle(chosen.subs, chosen.log, user, code);
      && first.reply.ChooseTime?
      && SubKey(user, code) in chosen.subs
      && chosen.subs[SubKey(user, code)] == HourRows[r][j]
      && last.subs == subs
      && last.log == log.(subsAdded := log.subsAdded + 1, subsRemoved := log.subsRemoved + 1)
  {
    PickerSubscribes(subs, log, user, code, r, j);
    var first := Toggle(subs, log, user, code);
    var chosen := Subscribe(first.subs, first.log, user, code, ParseCallback(first.reply.picker[r][j].data).arg);
    assert chosen.subs == subs[SubKey(user, code) := HourRows[r][j]];
    assert Toggle(chosen.subs, chosen.log, user, code).subs == subs;
  }

  // ---------------------------------------------------------------------------
  // The handler

  /** Everything the handler keeps between button presses. */
  datatype Bot = Bot(subs: Subs, log: Log, cache: Cache, history: Store, memo: Memo)

  /** The currency a callback names, when the handler serves it: not an
      administrator button, and a second piece naming a known currency. */
  function Routed(data: string): (r: Option<Code>)
    ensures r.Some? ==> !IsAdminData(data) && ParseCallback(data).code == Some(Name(r.value))
  {
    var cb := ParseCallback(data);
    if IsAdminData(data) || cb.code.None? then None else Lookup(cb.code.value)
  }

  /** A press of a user button with data `data` at instant `now`; `page` is
      what requesting the currency's page would give. Views fetch first (a
      fresh fetch is also written to the history store) and are logged only
      when they were sent. */
  method HandleUserCallback(bot: Bot, admin: Option<int>, user: int, data: string, now: int,
                            page: Result<Page, FetchError>)
    returns (bot': Bot, reply: Reply, answered: bool)
    ensures Routed(data).None? ==> bot' == bot && reply == NoReply && !answered
    ensures Routed(data).Some? ==> answered
    ensures Routed(data).Some? && ParseCallback(data).action == "subt" ==>
      var r := Subscribe(bot.subs, bot.log, user, Routed(data).value, ParseCallback(data).arg);
      bot' == bot.(subs := r.subs, log := r.log) && reply == r.reply
    ensures Routed(data).Some? && ParseCallback(data).action == "sub" ==>
      var r := Toggle(bot.subs, bot.log, user, Routed(data).value);
      bot' == bot.(subs := r.subs, log := r.log) && reply == r.reply
    ensures Routed(data).Some? && ParseCallback(data).action !in {"subt", "sub"} ==>
      bot'.subs == bot.subs
    ensures reply.Shown? ==>
      var code := Routed(data).value;
      var action := ParseCallback(data).action;
      && ViewOf(action).Some?
      && reply.nav == NavKeyboard(code, ViewOf(action).value, SubKey(user, code) in bot.subs)
      && bot'.log == LogActivity(bot.log, admin, user, action, Some(Name(code)))
    ensures reply.Failed? ==> bot'.log == bot.log && bot'.cache == bot.cache
    ensures reply.Failed? || reply.Shown? ==> Routed(data).Some? && ParseCallback(data).action !in {"subt", "sub"}
    ensures Routed(data).Some? && ParseCallback(data).action !in {"subt", "sub"} ==>
      ServeSpec(bot, bot', reply, Routed(data).value, ParseCallback(data).action, now, page)
  {
    var routed := Routed(data);
    if routed.None? {
      return bot, NoReply, false;
    }
    var cb := ParseCallback(data);
    answered := true;
    bot', reply := Dispatch(bot, admin, user, routed.value, cb.action, cb.arg, now, page);
  }

  /** One routed press on a served currency: `subt` and `sub` change the
      subscriptions, every other action is served by `Serve`. */
  method Dispatch(bot: Bot, admin: Option<int>, user: int, code: Code, action: string, arg: Option<string>,
                  now: int, page: Result<Page, FetchError>)
    returns (bot': Bot, reply: Reply)
    ensures action == "subt" ==>
      var r := Subscribe(bot.subs, bot.log, user, code, arg);
      bot' == bot.(subs := r.subs, log := r.log) && reply == r.reply
    ensures action == "sub" ==>
      var r := Toggle(bot.subs, bot.log, user, code);
      bot' == bot.(subs := r.subs, log := r.log) && reply == r.reply
    ensures action !in {"subt", "sub"} ==>
      && bot'.subs == bot.subs
      && (reply.Shown? ==>
            && ViewOf(action).Some?
            && reply.nav == NavKeyboard(code, ViewOf(action).value, SubKey(user, code) in bot.subs)
            && bot'.log == LogActivity(bot.log, admin, user, action, Some(Name(code))))
      && (reply.Failed? ==> bot'.log == bot.log && bot'.cache == bot.cache)
      && ServeSpec(bot, bot', reply, code, action, now, page)
    ensures reply.Failed? || reply.Shown? ==> action !in {"subt", "sub"}
  {
    if action == "subt" {
      var r := Subscribe(bot.subs, bot.log, user, code, arg);
      return bot.(subs := r.subs, log := r.log), r.reply;
    }
    if action == "sub" {
      var r := Toggle(bot.subs, bot.log, user, code);
      return bot.(subs := r.subs, log := r.log), r.reply;
    }
    bot', reply := Serve(bot, admin, user, code, action, now, page);
  }

  /** What serving `action` on `code` does with the fetch: a view is shown
      (history even after a failed fetch), a failed fetch otherwise changes
      nothing, and a successful one keeps the fetched cache and history. */
  ghost predicate ServeSpec(bot: Bot, bot': Bot, reply: Reply, code: Code, action: string, now: int,
                            page: Result<Page, FetchError>)
  {
    var f := FetchCurrency(bot.cache, code, now, page);
    && (action != "history" && f.result.Err? ==> bot' == bot && reply == Failed)
    && (ViewOf(action).Some? && (action == "history" || f.result.Ok?) ==>
          && reply.Shown?
          && ViewShown(bot, bot', code, ViewOf(action).value, now, page, reply.content))
    && (action != "history" && f.result.Ok? ==> bot'.cache == f.cache && bot'.history == Saved(bot.history, now, f.persist))
    && (ViewOf(action).None? && f.result.Ok? ==> reply == NoReply && bot'.log == bot.log && bot'.memo == bot.memo)
  }

  /** An action other than `subt` and `sub` on a served currency: its view is
      shown with the navigation keyboard and logged; a failed fetch changes
      nothing and answers with the error; an action naming no view still
      fetches, keeps what the fetch stored, and sends nothing. */
  method Serve(bot: Bot, admin: Option<int>, user: int, code: Code, action: string, now: int,
               page: Result<Page, FetchError>)
    returns (bot': Bot, reply: Reply)
    ensures bot'.subs == bot.subs
    ensures reply.Shown? ==>
      && ViewOf(action).Some?
      && reply.nav == NavKeyboard(code, ViewOf(action).value, SubKey(user, code) in bot.subs)
      && bot'.log == LogActivity(bot.log, admin, user, action, Some(Name(code)))
    ensures reply.Failed? ==> bot'.log == bot.log && bot'.cache == bot.cache
    ensures reply.Failed? || reply.Shown? || reply.NoReply?
    ensures ServeSpec(bot, bot', reply, code, action, now, page)
  {
    var shown, content, failed := ShowView(bot, code, action, now, page);
    if failed {
      return bot, Failed;
    }
    if content.None? {
      return shown, NoReply;
    }
    var view := ViewOf(action).value;
    reply := Shown(content.value, NavKeyboard(code, view, SubKey(user, code) in bot.subs));
    bot' := shown.(log := LogActivity(bot.log, admin, user, action, Some(Name(code))));
  }

  /** The history store after a fetch: a fresh fetch writes its snapshot and
      chart under the current UTC day. */
  function Saved(h: Store, now: int, persist: Option<PersistJob>): Store {
    if persist.Some? then SaveHistory(h, UtcDay(now), persist.value) else h
  }

  /** The previous cb rate a rate card compares with: the memo's entry for the code. */
  function Yesterday(memo: Memo, code: Code): Option<int> {
    if memo.Memo? && code in memo.rates then Some(memo.rates[code]) else None
  }

  /** The memo after reading yesterday's rates from `h` at instant `now`: today's
      Tashkent day; the old memo when it was already for that day, otherwise, per
      currency, the cb rate of its latest earlier row with a positive rate. */
  ghost predicate MemoAfter(h: Store, now: int, memo: Memo, memo': Memo) {
    && memo'.Memo? && memo'.date == TashkentDay(now)
    && (memo.Memo? && memo.date == TashkentDay(now) ==> memo' == memo)
    && (!(memo.Memo? && memo.date == TashkentDay(now)) ==>
          && (forall c :: c in memo'.rates <==> exists k :: Candidate(h, k, TashkentDay(now)) && k.code == c)
          && (forall c :: c in memo'.rates ==>
                exists d :: LatestBefore(h, c, TashkentDay(now), d) && memo'.rates[c] == h[Key(d, c)].cbRate))
  }

  /** What view `v` of `code` shows when the bot goes from `bot` to `after`: the
      newest week of history rows; or, from the fetched snapshot, the rate card
      against the memo's previous rate, the bank rating, or the spread table. */
  ghost predicate ViewShown(bot: Bot, after: Bot, code: Code, v: View, now: int, page: Result<Page, FetchError>, content: Content) {
    var f := FetchCurrency(bot.cache, code, now, page);
    match v
    case HistoryView =>
      exists rows :: NewestRows(bot.history, code, DefaultHistoryDays, rows) && content == HistoryList(HistoryOf(rows))
    case Kurs => f.result.Ok? && content == RateCard(CurrencyCard(f.result.value, Yesterday(after.memo, code)))
    case Banks => f.result.Ok? && content == BankList(BankRating(f.result.value))
    case SpreadView => f.result.Ok? && content == SpreadList(SpreadTable(f.result.value))
  }

  /** The body of the view `action` names. The history view reads the store
      only; the other views fetch first, and a failed fetch leaves everything
      as it was. An action that names no view shows nothing. */
  method ShowView(bot: Bot, code: Code, action: string, now: int, page: Result<Page, FetchError>)
    returns (bot': Bot, content: Option<Content>, failed: bool)
    ensures bot'.subs == bot.subs && bot'.log == bot.log
    ensures failed ==> bot' == bot && content.None?
    ensures content.Some? ==> ViewOf(action).Some? && ViewShown(bot, bot', code, ViewOf(action).value, now, page, content.value)
    ensures action == "history" ==> !failed && bot' == bot && content.Some?
    ensures action != "history" ==>
      var f := FetchCurrency(bot.cache, code, now, page);
      && (failed <==> f.result.Err?)
      && (!failed ==> bot'.cache == f.cache && bot'.history == Saved(bot.history, now, f.persist))
      && (!failed ==> (content.Some? <==> ViewOf(action).Some?))
      && (action != "kurs" ==> bot'.memo == bot.memo)
      && (!failed && action == "kurs" ==> MemoAfter(bot'.history, now, bot.memo, bot'.memo))
  {
    bot' := bot;
    if action == "history" {
      var rows := GetHistory(bot.history, code, DefaultHistoryDays);
      return bot, Some(HistoryList(HistoryOf(rows))), false;
    }
    var f := FetchCurrency(bot.cache, code, now, page);
    if f.result.Err? {
      FetchMissErr(bot.cache, code, now, f.result.error);
      return bot, None, true;
    }
    bot' := bot'.(cache := f.cache, history := Saved(bot.history, now, f.persist));
    var snap := f.result.value;
    if action == "kurs" {
      var rates, memo', _ := GetYesterdayRates(bot'.history, now, bot'.memo);
      bot' := bot'.(memo := memo');
      content := Some(RateCard(CurrencyCard(snap, Yesterday(memo', code))));
    } else if action == "banks" {
      content := Some(BankList(BankRating(snap)));
    } else if action == "spread" {
      content := Some(SpreadList(SpreadTable(snap)));
    } else {
      content := None;
    }
    failed := false;
  }
}
