# Exchange-rate bot: a Dafny model of its core

The bot reports Uzbek sum exchange rates for five currencies (USD, EUR, RUB,
GBP, KZT). Each currency's page on bank.uz gives three things: the central-bank
rate, the list of banks buying the currency and the list of banks selling it.
The bot keeps each scraped snapshot in memory for five minutes. It writes one
row per day and currency to a history table. It answers inline-button presses
with four views:

- a rate card with a day-over-day arrow;
- a numbered bank rating;
- a spread table ranked by the gap between a bank's two prices;
- a seven-day history.

Users subscribe to a currency at an hour of their choice. The administrator
can run a broadcast dialogue (one text for everyone, or Russian, English and
Uzbek texts). The administrator can also run a cleanup pass that deletes users
who blocked the bot.

The model has these modules:

| module | what it holds |
|---|---|
| `Common` | `Option` and `Result` |
| `Text` | decimal digits and JavaScript's `parseInt`, `split`, `join`, `trim` and `\s` on `seq<char>` |
| `Currencies` | the five codes in table order and their three-letter names |
| `Helpers` | `parseRate`, `formatRate`, the currency keyboard, the navigation keyboard, how a callback string is read |
| `Fetcher` | the cache, offer extraction, `fetchCurrency`, `fetchAllCurrencies` |
| `History` | the `rates_history` writes, `getHistory`, the memoised `getYesterdayRates` |
| `Formatters` | what each message shows; text and Markdown are replaced by datatypes |
| `Activity` | the activity log and its reset |
| `Callbacks` | the user button handler, subscriptions and the hour picker |
| `Broadcast` | the administrator's broadcast dialogue as a state machine |
| `Delivery` | `executeBroadcast` and `adm_cleanup` |

Everything the code reads from outside is a parameter:

- the clock, as milliseconds;
- the fetched page, or its failure;
- the configured administrator id (`None` when `USER_ID` is unset);
- what Telegram answers to a send or a probe.

Two behaviours of the code worth noting:

- A 403 during a broadcast only increments the blocked counter. It deletes
  nothing; only `adm_cleanup` deletes users.
- The broadcast edit buttons are accepted in any step of a session, not only
  at the preview.

## Model

| member | source | states |
|---|---|---|
| Text.ParseIntUnsigned | src/helpers.js:5 | `parseInt` of a run of digits followed by a non-digit reads exactly the value of those digits |
| Text.ParseIntNaN | src/helpers.js:5 | `parseInt` is NaN when no digit follows the optional sign |
| Text.ParseIntAutoDecimal | src/handlers.js:102 | `parseInt` without a radix reads text that does not start with `0x` or `0X` (after white space and sign) exactly as the base-10 read does |
| Text.ParseIntAutoHex | src/handlers.js:102 | `parseInt` without a radix reads `0x` or `0X` followed by hexadecimal digits as their base-16 value, up to the first non-hexadecimal character |
| Text.ParseIntAutoHexEmpty | src/handlers.js:102 | `parseInt` without a radix gives NaN for `0x` with no hexadecimal digit after it |
| Text.ParseIntAutoNatToString | src/handlers.js:102 | a number printed by `toString` reads back the same with or without a radix |
| Text.JoinSplit | src/handlers.js:90 | splitting a string on `_` and joining the pieces with `_` gives the string back |
| Text.NatToStringOfValue | src/helpers.js:10 | `toString` of a natural number is the canonical digit string whose value is that number |
| Currencies.Lookup | src/handlers.js:96 | a string is a served currency exactly when it is the three-letter name of one of the five codes, and it then looks up that code |
| Helpers.CleanedIsSpaceFree | src/helpers.js:4 | the final `trim` never has anything left to remove, because all white space was removed before it |
| Helpers.RemoveSumAbsent | src/helpers.js:4 | text without a Cyrillic "с" in either case, or the wide es U+1C83 that a case-insensitive match without the `u` flag also takes for it, is untouched by the removal of "сум" |
| Helpers.ParseRateReadsDigits | src/helpers.js:3-7 | the rate is the value of the leading run of digits of the cleaned text; reading stops at the first non-digit, so a decimal part is cut off |
| Helpers.ParseRateReadsNegative | src/helpers.js:3-7 | a leading minus sign gives the negated value |
| Helpers.ParseRateNoDigits | src/helpers.js:3-7 | text with no digit after the optional sign makes `parseInt` NaN, and the rate then falls back to 0 |
| Helpers.ParseRateExample | src/helpers.js:3-7 | a bank cell "12 750.5 сум" reads as 12750 |
| Helpers.GroupRemoveSpaces | src/helpers.js:10 | the grouping only inserts spaces: deleting them restores the digits |
| Helpers.FormatRateDigits | src/helpers.js:9-11 | a printed rate with its spaces deleted is the sign and decimal digits of the number |
| Helpers.FormatRateGroups | src/helpers.js:9-11 | a printed natural number splits on spaces into a head of one to three digits followed by groups of exactly three |
| Helpers.FormatRateSpaced | src/helpers.js:9-11 | a printed natural number contains a space exactly when it is 1000 or more; below that it is the plain digits |
| Helpers.FormatRateExample | src/helpers.js:9-11 | 12750 prints as "12 750" |
| Helpers.ParseFormatRoundTrip | src/helpers.js:3-11 | reading a printed rate with the rate parser gives back the integer, for every integer |
| Helpers.CurrencyKeyboard | src/helpers.js:22-33 | one row holding one button per currency, in table order, whose data is `action_CODE` |
| Helpers.ViewOf | src/helpers.js:36-41 | an action word names a view exactly when it is that view's key |
| Helpers.NavRowMembers | src/helpers.js:50-52 | a button is in the navigation row exactly when it belongs to a listed view other than the one shown |
| Helpers.NavRowOrdered | src/helpers.js:50-52 | the navigation row keeps the order of the views it filters |
| Helpers.NavKeyboard | src/helpers.js:43-56 | two rows; the second is the single subscribe button, labelled "unsubscribe" exactly when the user is subscribed |
| Helpers.NavKeyboardRow | src/helpers.js:35-52 | the first row offers the three views other than the one shown, in the order kurs, banks, spread, history |
| Helpers.ParseCallback | src/handlers.js:90-92 | the action, code and argument read from callback data are `_`-free pieces; there is an argument only after a code |
| Helpers.CallbackRoundTrip | src/handlers.js:90-96 | data `action_CODE` reads back as that action and code, and the code is a served currency |
| Helpers.CallbackArgRoundTrip | src/handlers.js:90-102 | data `action_CODE_arg` reads back as its three pieces |
| Helpers.KeyboardCallbacksRoundTrip | src/helpers.js:22-53 | every button of the currency and navigation keyboards passes the user handler's prefix check and reads back as its view and currency |
| Helpers.NotAdminData | src/handlers.js:87 | data built from a currency code starts with `bc_` or `adm_` only when the action itself is `bc` or `adm` |
| Fetcher.GetCached | src/parser.js:12-16 | a served snapshot is the one stored for that code |
| Fetcher.GetCachedWindow | src/parser.js:9-16 | an entry stored at time ts is served exactly while now < ts + 300000 |
| Fetcher.GetCachedMissing | src/parser.js:12-15 | nothing is served for a code that was never stored |
| Fetcher.GetCachedOther | src/parser.js:12-16 | storing under one code does not change what is served for any other code |
| Fetcher.ExtractOffers | src/parser.js:36-46 | a list never yields more offers than it has rows |
| Fetcher.ExtractOffersAppend | src/parser.js:36-46 | extraction works row by row: two stretches of rows give their offers one after the other |
| Fetcher.ExtractOffersOne | src/parser.js:37-39 | a single row contributes its trimmed name and parsed rate exactly when the rate is positive and the name non-empty |
| Fetcher.ExtractOffersMembers | src/parser.js:36-46 | an offer is extracted exactly when some row reads as it and it has a positive rate and a name |
| Fetcher.Scrape | src/parser.js:28-51 | the buy and sell lists of a snapshot are the offers extracted from the page's two lists |
| Fetcher.FetchCurrency | src/parser.js:20-61 | the page is requested exactly on a cache miss, and a history write is started only together with a successful answer holding the same snapshot |
| Fetcher.FetchHit | src/parser.js:21-22 | a hit answers with the cached snapshot whatever the page would say, and changes nothing |
| Fetcher.FetchMissOk | src/parser.js:24-60 | a successful miss answers the scraped snapshot, stores it stamped with the current time and starts its history write with the page's chart |
| Fetcher.FetchMissErr | src/parser.js:24 | a failed request reports the failure and leaves the cache as it was |
| Fetcher.FetchCurrencyLocal | src/parser.js:53 | a fetch changes at most its own code's entry |
| Fetcher.FetchThenServed | src/parser.js:12-53 | after a fresh fetch the same answer is served without a request for the next five minutes |
| Fetcher.FetchCurrencyIndependent | src/parser.js:20-61 | one code's fetch is unaffected by another code's cache entry |
| Fetcher.FetchEachOthers | src/parser.js:65-73 | fetching a list of codes leaves the cache entry of every code outside the list as it was |
| Fetcher.FetchEachResult | src/parser.js:65-73 | fetching distinct codes one after another gives each code the answer it would get fetched alone |
| Fetcher.FetchEachEntry | src/parser.js:65-73 | fetching distinct codes one after another leaves each code's cache entry as its own fetch would |
| Fetcher.FirstError | src/parser.js:67-71 | there is no error exactly when every listed fetch succeeded; a reported error is one of the fetches' errors |
| Fetcher.FetchAllSpec | src/parser.js:65-73 | fetching all currencies succeeds exactly when each currency's fetch succeeds alone, and then maps every code to that fetch's snapshot; a failure is one of the fetches' failures |
| Fetcher.FetchAllCache | src/parser.js:65-73 | even when the combined fetch fails, every code's cache entry is the one its own fetch would leave |
| History.TodayNotions | src/parser.js:90-142 | the day a save writes under (UTC) and the day the change indicator calls today (Tashkent) differ exactly in the first five hours of the Tashkent day, by one |
| History.TodayRow | src/parser.js:92-104 | today's row has the central-bank rate and the first buy and sell offers, or rate 0 and no name for an empty list |
| History.Recent | src/parser.js:108 | the backfill uses the newest thirty chart points, or all of them when there are fewer |
| History.LastValue | src/parser.js:109-118 | the value that wins for a day is positive |
| History.BackfillSpec | src/parser.js:106-120 | after the backfill, a day of the currency with a positive point has the last such value as its cb_rate and keeps its bank columns (NULL for a new row); every other row is untouched |
| History.BackfillKeeps | src/parser.js:106-120 | the backfill never removes a row |
| History.SaveHistorySpec | src/parser.js:89-121 | after a save, today's row gets all five columns from the snapshot, except that a chart point for today overrides its cb_rate; other days with a positive recent point get their cb_rate; nothing else changes |
| History.SaveHistoryIdempotent | src/parser.js:89-121 | saving the same page twice on one day leaves the same table as saving it once |
| History.SaveHistoryCommute | src/parser.js:89-121 | the saves of two different currencies give the same table in either order |
| History.Newest | src/parser.js:130 | the newest of a non-empty set of days |
| History.DaysOf | src/parser.js:129 | the days on which the currency has a row |
| History.GetHistory | src/parser.js:125-135 | at most the requested number of the currency's rows, strictly newest first, each as stored; any row left out is older than every listed row and the list is full |
| History.LatestRates | src/parser.js:145-152 | a currency has a rate exactly when it has a row before today with a positive cb_rate, and the rate is the cb_rate of its latest such row |
| History.GetYesterdayRates | src/parser.js:139-156 | the table is read only when the memo is not from the current Tashkent day; a read gives each currency the cb_rate of its latest earlier positive row; either way the memo then holds the answer for today |
| Formatters.ChangeArrow | src/formatters.js:7-12 | no arrow without a non-zero previous rate or when today's rate is 0; otherwise up exactly when the rate rose and down exactly when it fell |
| Formatters.ChangeArrowSwap | src/formatters.js:7-12 | swapping the two rates swaps up and down, and equal rates never get an arrow |
| Formatters.Best | src/formatters.js:27-32 | the shown offer exists exactly when the list is non-empty and is its first entry |
| Formatters.CurrencyCard | src/formatters.js:21-32 | the central-bank line appears exactly when that rate is positive and carries its change arrow; the user's buy price is the banks' best sell offer and the user's sell price the banks' best buy offer |
| Formatters.BestIsFirstKept | src/formatters.js:27-31 | the best offer shown is the first page row with a positive rate and a name |
| Formatters.AllRates | src/formatters.js:41-59 | one block per currency, in table order |
| Formatters.AllRatesBlocks | src/formatters.js:41-57 | each block shows what that currency's own card shows, and without yesterday's rates no block has an arrow |
| Formatters.Number | src/formatters.js:72-78 | a side shows "no data" exactly when its list is empty, and otherwise numbers the offers from 1 |
| Formatters.NumberRoundTrip | src/formatters.js:75-86 | the numbered list holds exactly the offers, in list order |
| Formatters.BankRating | src/formatters.js:71-87 | the user's buy side lists exactly the banks' sell offers and the user's sell side exactly the buy offers, in page order |
| Formatters.Merge | src/formatters.js:96-104 | the merge table lists each bank once and has a quote for exactly the listed banks |
| Formatters.LastRate | src/formatters.js:97-100 | a bank has a rate in a list exactly when it appears there |
| Formatters.AddBuysQuotes | src/formatters.js:97 | after the buy offers, a bank has a quote exactly when it appears in them, with its last buy rate as the user's sell price and no buy price |
| Formatters.AddSellsQuotes | src/formatters.js:98-101 | a sell offer sets the user's buy price of its bank's quote and keeps the sell price; a bank with no sell offer keeps its quote |
| Formatters.MergeQuotes | src/formatters.js:96-101 | a bank has a quote exactly when either list names it, holding its last sell rate as the user's buy price and its last buy rate as the user's sell price |
| Formatters.Entries | src/formatters.js:103-108 | the spread rows are exactly the banks whose two prices are both present and non-zero, each with spread = buy price minus sell price |
| Formatters.Insert | src/formatters.js:109 | inserting adds exactly one entry |
| Formatters.InsertAscending | src/formatters.js:109 | inserting into a list sorted by spread keeps it sorted |
| Formatters.SortBySpread | src/formatters.js:109 | sorting is a permutation of the rows |
| Formatters.SortAscending | src/formatters.js:109 | the sorted rows go by ascending spread |
| Formatters.PrefixOf | src/formatters.js:119-121 | the first three places get medals and place i (from 0) otherwise shows number i + 1 |
| Formatters.SpreadTable | src/formatters.js:114-125 | "no data" exactly when no bank has both prices; otherwise the i-th shown row is the i-th sorted row with its place mark |
| Formatters.SpreadRowsAscending | src/formatters.js:109 | the spread table goes by ascending spread |
| Formatters.SpreadRowsComplete | src/formatters.js:96-108 | every bank quoting both sides has a row built from its last rates |
| Formatters.SpreadRowsSound | src/formatters.js:96-108 | every row belongs to a bank quoting both sides and is built from its last rates |
| Formatters.SpreadRowsOnce | src/formatters.js:96-108 | no bank has two rows |
| Formatters.NoSpreadWhenOneSided | src/formatters.js:96-117 | with no sell offers there is no spread table |
| Formatters.TrendAt | src/formatters.js:147-153 | the oldest row shown never has a trend arrow |
| Formatters.BankLineOf | src/formatters.js:160-169 | a bank line appears exactly when its rate is positive, and names the bank exactly when the name is non-empty |
| Formatters.HistoryOf | src/formatters.js:135-171 | "no data" exactly when there are no rows; otherwise one day per row, in row order, showing the cb rate exactly when it is positive, the sell columns as the user's buy price and the buy columns as the user's sell price |
| Formatters.HistoryTrendsAgree | src/formatters.js:147-153 | each day's trend is rising, falling or steady exactly as the change arrow against the next older row is up, down or absent with both rates positive, and the oldest day has none |
| Activity.Bump | src/handlers.js:23-24 | the counter of one key goes up by one and no other counter moves |
| Activity.LogActivity | src/handlers.js:20-25 | nothing is recorded without a configured administrator or for the administrator; otherwise the user becomes active, the action's counter goes up by one, and the currency's counter goes up by one exactly when a non-empty code is given; nothing else changes |
| Activity.ResetActivityLog | src/handlers.js:27-35 | after a reset every counter is zero and every list and set is empty |
| Activity.ReplayCounts | src/handlers.js:20-35 | from a reset log, each action counter is the number of recorded events with that action and each currency counter the number naming that currency |
| Activity.ReplayUsers | src/handlers.js:20-35 | from a reset log, the active users are exactly the senders of recorded events; the administrator is never among them |
| Callbacks.TimePicker | src/handlers.js:129-136 | the hour picker has two rows of four hours |
| Callbacks.Subscribe | src/handlers.js:101-114 | the hour is read by `parseInt` without a radix; an unreadable hour changes nothing and sends nothing; otherwise the hour is stored for (user, currency), replacing an earlier one, no other subscription changes, one subscription is counted and the user is told the hour |
| Callbacks.Toggle | src/handlers.js:117-142 | a subscribed user is unsubscribed and one removal is counted; otherwise nothing changes and the hour picker is shown |
| Callbacks.SubscribeHexHour | src/handlers.js:101-114 | hand-written data `subt_CODE_0x` followed by hexadecimal digits subscribes at their base-16 value (`0x9` is hour 9) |
| Callbacks.SubscribeHexEmpty | src/handlers.js:101-114 | hand-written data `subt_CODE_0x` with nothing after the prefix changes nothing and sends nothing |
| Callbacks.HourButtonParses | src/handlers.js:132-133 | an hour button's data passes the prefix check and reads back as `subt`, the currency and the hour it shows |
| Callbacks.PickerSubscribes | src/handlers.js:101-136 | pressing any picker button subscribes the user to that currency at the hour the button shows |
| Callbacks.ToggleRoundTrip | src/handlers.js:101-142 | subscribe, pick an hour, then subscribe again restores the subscriptions and counts one subscription and one removal |
| Callbacks.Routed | src/handlers.js:86-96 | the handler serves only data outside the administrator prefixes whose second piece is a served currency |
| Callbacks.ShowView | src/handlers.js:144-157 | the history view shows the newest seven stored rows and changes nothing; every other action fetches first, fails exactly when the fetch fails and then changes nothing, and otherwise keeps the fetched cache and the history write of a fresh fetch; the rate card compares with yesterday's rate read after that write (the day's memo, or the latest earlier positive cb rate), the rating and spread table come from the fetched snapshot, and an action naming no view shows nothing |
| Callbacks.HandleUserCallback | src/handlers.js:86-173 | data it does not serve changes nothing and is not answered; `subt` and `sub` act exactly as subscribing and toggling; a served view action is shown exactly when its fetch succeeds (history always), with the content of that view, the navigation keyboard for that view and subscription state, the fetched cache, and a log entry; a failed fetch changes nothing and answers with the error; an action naming no view still fetches, keeps the fetched cache and history write, and sends nothing |
| Callbacks.Dispatch | src/handlers.js:101-172 | on a served currency, `subt` and `sub` act exactly as subscribing and toggling, and every other action leaves the subscriptions alone and is served as `Callbacks.Serve` states |
| Callbacks.Serve | src/handlers.js:143-172 | a view action is shown (history even after a failed fetch) with that view's content, its navigation keyboard and a log entry; otherwise a failed fetch changes nothing and answers with the error; a successful fetch keeps the fetched cache and history write; an action naming no view sends nothing and logs nothing |
| Broadcast.Press | src/handlers.js:211-346 | presses that are not the administrator's or lack the `bc_`/`adm_` prefix change nothing; a send happens only from the preview on `bc_send`, and there it always happens, ends the session and hands over its kind (single when none was chosen) and texts; each edit button during a session moves to its input step keeping the texts; every other press, the report and cleanup buttons included, leaves the session as it was |
| Broadcast.Message | src/handlers.js:349-384 | text is ignored without a session, from anyone but the administrator, when empty or when it starts with `/`; otherwise a single session at its input step stores the text as `all` and goes to the preview, a per-language session at the Russian or English step stores that text and goes to the next language, or to the preview when all three texts were already filled, at the Uzbek step stores it and goes to the preview, and any other session is left unchanged; the kind never changes |
| Broadcast.Cancel | src/handlers.js:203-208 | the administrator's message containing `/cancel` ends the session; any other message leaves it |
| Broadcast.PressValid | src/handlers.js:292-345 | every button press keeps the session invariant: non-empty texts in the slots of its kind, and a preview holds the last text its kind asks for |
| Broadcast.IncomingValid | src/handlers.js:349-384 | every incoming message keeps the session invariant |
| Broadcast.SendHasText | src/handlers.js:343-345 | a send from a reachable session carries the common text for a single broadcast and the Uzbek text for a per-language one |
| Broadcast.PressResets | src/handlers.js:292-341 | `adm_broadcast`, `bc_multi` and `bc_single` start a fresh session whatever was open, `bc_cancel` ends it, and an edit button changes only the step |
| Broadcast.MultiDialogue | src/handlers.js:313-382 | three texts after `bc_multi` reach the preview holding exactly those texts, and `bc_send` hands them over and ends the session |
| Broadcast.SingleDialogue | src/handlers.js:318-361 | one text after `bc_single` reaches the preview, and `bc_send` hands it over |
| Broadcast.EditReturnsToPreview | src/handlers.js:328-377 | at the preview of a per-language broadcast, editing one language replaces only that text and returns straight to the preview |
| Broadcast.PreviewWithoutRussian | src/handlers.js:313-382 | `bc_multi`, then the Uzbek edit button, then one text reaches the preview with no Russian text |
| Broadcast.IgnoredText | src/handlers.js:349-352 | text from anyone but the administrator, or a command other than `/cancel`, never moves the dialogue |
| Delivery.Classify | src/handlers.js:441-451 | a delivered message counts as sent, a 403 as blocked, every other failure as an error |
| Delivery.Route | src/handlers.js:433-439 | a single broadcast sends the common text; a per-language one sends the text of the user's language (Russian when none is set), falling back to the Russian text when that is missing or empty |
| Delivery.RouteOwnLanguage | src/handlers.js:434-436 | a user whose language has a text gets that text |
| Delivery.RouteComplete | src/handlers.js:434-436 | after a complete per-language dialogue every user gets a non-empty text: their language's, or the Russian one |
| Delivery.SendReachesUsers | src/handlers.js:343-439 | from any reachable session, a single send gives every user a text, and a per-language send gives Uzbek-speaking users a text |
| Delivery.NoTextWithoutRussian | src/handlers.js:434-436 | a per-language send holding only the Uzbek text gives users without a language, or with Russian, no text at all |
| Delivery.Recipients | src/handlers.js:430-431 | the recipients are exactly the users other than the administrator |
| Delivery.PlanAt | src/handlers.js:430-442 | the i-th message goes to the i-th recipient with the text routed for their language |
| Delivery.TallyOf | src/handlers.js:428-451 | every attempt is counted exactly once |
| Delivery.TallyCounts | src/handlers.js:441-451 | each counter is the number of attempt positions whose outcome has that status |
| Delivery.ExecuteBroadcast | src/handlers.js:418-462 | one attempt per user other than the administrator, in table order, with the routed text; the counters classify every attempt and add up to the number of recipients |
| Delivery.WithoutUser | src/handlers.js:280-281 | deleting a user's rows removes exactly the rows with that id |
| Delivery.Cleanup | src/handlers.js:269-290 | a user survives exactly when their probe was not refused with 403; that user's subscriptions go too, other subscriptions keep their hours; the removed count and the blocked counter grow by the number of refused rows |

## Left out

- `bot.js`, `src/config.js` and `src/messages.js` are not part of this model. Scheduled digests, the `/start`, `/help`, `/kurs` and `/all` commands and language selection live there or in the command handlers of `src/handlers.js`. Captions and labels are left abstract, because they are per-language text.
- The administrator's report buttons (`adm_users`, `adm_stats`) only read the database and print; the model counts them as presses that change nothing.
- HTML parsing with cheerio and the regex and JSON extraction of chart data are left out. A page is given as its rate cells, bank rows and chart points.
- `Math.round(parseFloat(...))` on chart values is left out; chart points arrive as integers.
- The percentage with `toFixed(2)` in the spread table and `Intl` date formatting are left out, because they are floating point and locale data.
- Every message is modelled as a datatype of what it shows. Markdown and emoji text are not modelled.
- Fetcher.FetchAllSpec: a failure is reported as the first in code order, where the code reports whichever fetch rejects first. More generally, the asynchronous structure is modelled sequentially: `Promise.all` runs in code order, and the fire-and-forget history save lands before the next read.
- The 35 ms pauses between sends are left out.
- Fetcher.FetchCurrency: uses one instant for the freshness test and the cache stamp. The code reads the clock twice.
- Database failures are left out, except the one an unreadable hour causes in `subt`. Telegram send failures outside the broadcast and cleanup loops are also left out. The width of the `send_hour` column is not modelled.
- Rates are unbounded integers. JavaScript numbers lose precision beyond 2^53 and print in exponent form from 10^21, and neither is modelled.
- Plain JavaScript objects are used as maps, and their prototype keys (a bank named `constructor`, a language `toString`) are not modelled. Neither is `Object.entries` putting integer-like bank names first.
- Currencies.Lookup, Callbacks.Routed: `CURRENCIES[code]` is also truthy for the prototype keys `constructor` and `__proto__`, so data such as `kurs_constructor` passes the currency check in the code; the model serves only the five codes.
- Formatters.Merge: the banks keep their first-insertion order, but no contract states it; that order only decides the order of equal spreads, which is left out with SortBySpread.
- Formatters.SortBySpread: the tie order (the sort is stable, so equal spreads keep merge order) is not stated; only permutation and ascending order are.
- `newUsers` of the activity log is filled by `/start`, which is not modelled. Only the reset empties it.
