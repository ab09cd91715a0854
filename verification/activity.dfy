/**
 The activity log behind the daily digest: which users were active, how often
 each action and each currency was asked for, and the subscription and
 blocking counters. Users are numeric Telegram ids; the administrator id is
 `None` when it is not configured.
 */
module Activity {
  import opened Common

  /** A user who ran /start for the first time. */
  datatype NewUser = NewUser(name: string, username: Option<string>)

  datatype Log = Log(
    actions: map<string, nat>,
    activeUsers: set<int>,
    newUsers: seq<NewUser>,
    currencies: map<string, nat>,
    subsAdded: nat,
    subsRemoved: nat,
    blocked: nat)

  /** A counter of a tally map; a missing key counts 0. */
  function Count(m: map<string, nat>, k: string): nat {
    if k in m then m[k] else 0
  }

  function Bump(m: map<string, nat>, k: string): (r: map<string, nat>)
    ensures Count(r, k) == Count(m, k) + 1
    ensures forall j :: j != k ==> Count(r, j) == Count(m, j)
  {
    m[k := Count(m, k) + 1]
  }

  /** Activity is recorded only when an administrator is configured and the
      user is someone else. */
  predicate Tracked(admin: Option<int>, user: int) {
    admin.Some? && user != admin.value
  }

  /** `code` counts only when it is a non-empty string. */
  predicate Given(code: Option<string>) {
    code.Some? && code.value != ""
  }

  function LogActivity(log: Log, admin: Option<int>, user: int, action: string, code: Option<string>): (r: Log)
    ensures !Tracked(admin, user) ==> r == log
    ensures Tracked(admin, user) ==>
      && r.activeUsers == log.activeUsers + {user}
      && Count(r.actions, action) == Count(log.actions, action) + 1
      && (forall a :: a != action ==> Count(r.actions, a) == Count(log.actions, a))
      && (Given(code) ==> Count(r.currencies, code.value) == Count(log.currencies, code.value) + 1)
      && (forall c :: !(Given(code) && c == code.value) ==> Count(r.currencies, c) == Count(log.currencies, c))
    ensures r.newUsers == log.newUsers && r.subsAdded == log.subsAdded
      && r.subsRemoved == log.subsRemoved && r.blocked == log.blocked
  {
    if !Tracked(admin, user) then log
    else
      log.(activeUsers := log.activeUsers + {user},
           actions := Bump(log.actions, action),
           currencies := if Given(code) then Bump(log.currencies, code.value) else log.currencies)
  }

  /** The log after the digest is sent: every counter zero and every list empty. */
  function ResetActivityLog(log: Log): (r: Log)
    ensures forall a :: Count(r.actions, a) == 0
    ensures forall c :: Count(r.currencies, c) == 0
    ensures r.activeUsers == {} && |r.newUsers| == 0
    ensures r.subsAdded == 0 && r.subsRemoved == 0 && r.blocked == 0
  {
    Log(map[], {}, [], map[], 0, 0, 0)
  }

  // ---------------------------------------------------------------------------
  // A reference description: the log as a count over the logged events

  datatype Event = Event(user: int, action: string, code: Option<string>)

  function Replay(log: Log, admin: Option<int>, events: seq<Event>): Log
    decreases |events|
  {
    if |events| == 0 then log
    else
      var e := events[|events| - 1];
      LogActivity(Replay(log, admin, events[..|events| - 1]), admin, e.user, e.action, e.code)
  }

  /** How many events of `events` are recorded with action `a`. */
  function Tally(admin: Option<int>, events: seq<Event>, a: string): nat
    decreases |events|
  {
    if |events| == 0 then 0
    else
      var e := events[|events| - 1];
      Tally(admin, events[..|events| - 1], a) + if Tracked(admin, e.user) && e.action == a then 1 else 0
  }

  /** How many recorded events of `events` name currency `c`. */
  function CurrencyTally(admin: Option<int>, events: seq<Event>, c: string): nat
    decreases |events|
  {
    if |events| == 0 then 0
    else
      var e := events[|events| - 1];
      CurrencyTally(admin, events[..|events| - 1], c) + if Tracked(admin, e.user) && Given(e.code) && e.code.value == c then 1 else 0
  }

  /** Starting from a reset log, each action counter is the number of recorded
      events with that action and each currency counter the number naming it. */
  lemma {:induction false} ReplayCounts(log: Log, admin: Option<int>, events: seq<Event>, a: string)
    ensures Count(Replay(ResetActivityLog(log), admin, events).actions, a) == Tally(admin, events, a)
    ensures Count(Replay(ResetActivityLog(log), admin, events).currencies, a) == CurrencyTally(admin, events, a)
    decreases |events|
  {
    if |events| > 0 {
      ReplayCounts(log, admin, events[..|events| - 1], a);
    }
  }

  /** Starting from a reset log, the active users are exactly the senders of
      recorded events; the administrator never appears. */
  lemma {:induction false} ReplayUsers(log: Log, admin: Option<int>, events: seq<Event>, u: int)
    ensures u in Replay(ResetActivityLog(log), admin, events).activeUsers <==>
      Tracked(admin, u) && exists i :: 0 <= i < |events| && events[i].user == u
    decreases |events|
  {
    if |events| > 0 {
      var init := events[..|events| - 1];
      ReplayUsers(log, admin, init, u);
      if exists i :: 0 <= i < |init| && init[i].user == u {
        var i :| 0 <= i < |init| && init[i].user == u;
        assert events[i].user == u;
      }
      if exists i :: 0 <= i < |events| && events[i].user == u {
        var i :| 0 <= i < |events| && events[i].user == u;
        if i < |init| {
          assert init[i].user == u;
        }
      }
    }
  }
}
