/**
 Sending a broadcast to every user and the cleanup pass: which text each
 user gets, how each send outcome is counted, and which users and
 subscriptions a cleanup removes. Send outcomes come in as a function from
 the attempted delivery (or probed user) to what Telegram answered.
 */
module Delivery {
  import opened Common
  import opened Broadcast
  import opened Activity
  import opened Callbacks

  /** A row of the users table as the broadcast reads it. */
  datatype User = User(id: int, language: Option<string>)

  /** What a send or a probe came back with: success, or an error with the
      HTTP status of Telegram's answer when there was one. */
  datatype Outcome = Delivered | Refused(status: Option<int>)

  datatype Status = Sent | Blocked | Errored

  /** 403 means the user blocked the bot; every other failure is an error. */
  function Classify(o: Outcome): (s: Status)
    ensures s == Sent <==> o.Delivered?
    ensures s == Blocked <==> o == Refused(Some(403))
  {
    match o
    case Delivered => Sent
    case Refused(status) => if status == Some(403) then Blocked else Errored
  }

  /** The texts object is keyed by these language codes. */
  function SlotOf(lang: string): Option<Slot> {
    if lang == "ru" then Some(Ru)
    else if lang == "en" then Some(En)
    else if lang == "uz" then Some(Uz)
    else if lang == "all" then Some(All)
    else None
  }

  function TextAt(texts: map<Slot, string>, slot: Option<Slot>): Option<string> {
    if slot.Some? && Filled(texts, slot.value) then Some(texts[slot.value]) else None
  }

  /** The text a user is sent (`None` stands for `undefined`): for a
      per-language broadcast the user's language, Russian when it is unset,
      falling back to the Russian text; otherwise the single text. */
  function Route(kind: Kind, texts: map<Slot, string>, language: Option<string>): (t: Option<string>)
    ensures kind == Single ==> t == (if All in texts then Some(texts[All]) else None)
    ensures kind == Multi && (language.None? || language == Some("")) ==> t == TextAt(texts, Some(Ru))
    ensures kind == Multi && language.Some? && language.value != "" ==>
      t == (if TextAt(texts, SlotOf(language.value)).Some? then TextAt(texts, SlotOf(language.value)) else TextAt(texts, Some(Ru)))
  {
    match kind
    case Single => if All in texts then Some(texts[All]) else None
    case Multi =>
      var lang := if language.None? || language.value == "" then "ru" else language.value;
      var own := TextAt(texts, SlotOf(lang));
      if own.Some? then own else TextAt(texts, Some(Ru))
  }

  /** A user with a language of their own gets their text when there is one. */
  lemma RouteOwnLanguage(texts: map<Slot, string>, lang: string, slot: Slot)
    requires SlotOf(lang) == Some(slot) && Filled(texts, slot)
    ensures Route(Multi, texts, Some(lang)) == Some(texts[slot])
  {
  }

  /** After a complete per-language dialogue every user gets a text: their
      own language's, or the Russian one. */
  lemma RouteComplete(ru: string, en: string, uz: string, language: Option<string>)
    requires ru != "" && en != "" && uz != ""
    ensures var t := Route(Multi, map[Ru := ru, En := en, Uz := uz], language);
      t.Some? && t.value in {ru, en, uz}
  {
  }

  /** What `bc_send` hands over from any reachable session gives every user
      of a single broadcast a text, and every Uzbek-speaking user of a
      per-language one. */
  lemma SendReachesUsers(s: State, admin: Option<int>, user: int, data: string, language: Option<string>)
    requires Valid(s)
    ensures var e := Press(s, admin, user, data).1;
      && (e.Send? && e.kind == Single ==> Route(Single, e.texts, language).Some?)
      && (e.Send? && e.kind == Multi && language == Some("uz") ==> Route(Multi, e.texts, language).Some?)
  {
    SendHasText(s, admin, user, data);
  }

  /** The session `PreviewWithoutRussian` reaches sends nothing usable to a
      user whose language is Russian or unset: there is no Russian text to
      fall back on. */
  lemma NoTextWithoutRussian(uz: string, language: Option<string>)
    requires uz != ""
    requires language.None? || language == Some("") || language == Some("ru")
    ensures Route(Multi, map[Uz := uz], language).None?
  {
  }

  /** One attempted message. */
  datatype Message = Message(user: int, text: Option<string>)

  /** Every user but the administrator, in table order. */
  function Recipients(users: seq<User>, admin: Option<int>): (r: seq<User>)
    ensures |r| <= |users|
    ensures forall u :: u in r <==> u in users && !IsAdmin(admin, u.id)
    decreases |users|
  {
    if |users| == 0 then []
    else
      var last := users[|users| - 1];
      Recipients(users[..|users| - 1], admin) + if IsAdmin(admin, last.id) then [] else [last]
  }

  /** The messages a broadcast attempts, in order. */
  function Plan(recipients: seq<User>, kind: Kind, texts: map<Slot, string>): (ms: seq<Message>)
    ensures |ms| == |recipients|
    decreases |recipients|
  {
    if |recipients| == 0 then []
    else
      var last := recipients[|recipients| - 1];
      Plan(recipients[..|recipients| - 1], kind, texts) + [Message(last.id, Route(kind, texts, last.language))]
  }

  /** The i-th message goes to the i-th recipient with the text routed for them. */
  lemma {:induction false} PlanAt(recipients: seq<User>, kind: Kind, texts: map<Slot, string>, i: nat)
    requires i < |recipients|
    ensures Plan(recipients, kind, texts)[i] == Message(recipients[i].id, Route(kind, texts, recipients[i].language))
    decreases |recipients|
  {
    if i < |recipients| - 1 {
      PlanAt(recipients[..|recipients| - 1], kind, texts, i);
    }
  }

  datatype Tally = Tally(sent: nat, blocked: nat, errors: nat)

  function Add(t: Tally, s: Status): Tally {
    match s
    case Sent => t.(sent := t.sent + 1)
    case Blocked => t.(blocked := t.blocked + 1)
    case Errored => t.(errors := t.errors + 1)
  }

  /** The reference count of a sequence of messages' outcomes. */
  function TallyOf(ms: seq<Message>, send: Message -> Outcome): (t: Tally)
    ensures t.sent + t.blocked + t.errors == |ms|
    decreases |ms|
  {
    if |ms| == 0 then Tally(0, 0, 0)
    else Add(TallyOf(ms[..|ms| - 1], send), Classify(send(ms[|ms| - 1])))
  }

  /** The counter a status is counted in. */
  function CountOf(t: Tally, s: Status): nat {
    match s
    case Sent => t.sent
    case Blocked => t.blocked
    case Errored => t.errors
  }

  /** The positions of the messages that ended with status `st`. */
  function Matching(ms: seq<Message>, send: Message -> Outcome, st: Status): set<nat> {
    set i: nat | i < |ms| && Classify(send(ms[i])) == st
  }

  lemma MatchingStep(ms: seq<Message>, send: Message -> Outcome, st: Status)
    requires |ms| > 0
    ensures var n := |ms| - 1;
      Matching(ms, send, st) == Matching(ms[..n], send, st) + if Classify(send(ms[n])) == st then {n} else {}
  {
    var n := |ms| - 1;
    var extra: set<nat> := if Classify(send(ms[n])) == st then {n} else {};
    forall i: nat | i in Matching(ms, send, st) ensures i in Matching(ms[..n], send, st) + extra {
      if i < n {
        assert ms[..n][i] == ms[i];
      }
    }
    forall i: nat | i in Matching(ms[..n], send, st) ensures i in Matching(ms, send, st) {
      assert ms[..n][i] == ms[i];
    }
  }

  /** The counters never lose or double-count a message: each counter is the
      number of messages that ended with its status. */
  lemma {:induction false} TallyCounts(ms: seq<Message>, send: Message -> Outcome, st: Status)
    ensures CountOf(TallyOf(ms, send), st) == |Matching(ms, send, st)|
    decreases |ms|
  {
    if |ms| > 0 {
      var n := |ms| - 1;
      TallyCounts(ms[..n], send, st);
      MatchingStep(ms, send, st);
      assert n !in Matching(ms[..n], send, st);
    }
  }

  /** `executeBroadcast`: the session is already gone (see `Press`); every
      user but the administrator is sent, in table order, the text `Route`
      picks, and each outcome is counted once. */
  method ExecuteBroadcast(users: seq<User>, admin: Option<int>, kind: Kind, texts: map<Slot, string>,
                          send: Message -> Outcome)
    returns (attempts: seq<Message>, tally: Tally)
    ensures attempts == Plan(Recipients(users, admin), kind, texts)
    ensures tally == TallyOf(attempts, send)
    ensures tally.sent + tally.blocked + tally.errors == |Recipients(users, admin)|
    ensures forall m :: m in attempts ==> !IsAdmin(admin, m.user)
  {
    attempts := [];
    tally := Tally(0, 0, 0);
    ghost var done: seq<User> := [];
    for i := 0 to |users|
      invariant done == Recipients(users[..i], admin)
      invariant attempts == Plan(done, kind, texts)
      invariant tally == TallyOf(attempts, send)
      invariant forall m :: m in attempts ==> !IsAdmin(admin, m.user)
    {
      RecipientsStep(users, admin, i);
      var u := users[i];
      if !IsAdmin(admin, u.id) {
        var m := Message(u.id, Route(kind, texts, u.language));
        PlanStep(done, u, kind, texts);
        TallyStep(attempts, m, send);
        tally := Add(tally, Classify(send(m)));
        attempts := attempts + [m];
        done := done + [u];
      }
    }
    assert users[..|users|] == users;
  }

  lemma RecipientsStep(users: seq<User>, admin: Option<int>, i: nat)
    requires i < |users|
    ensures Recipients(users[..i + 1], admin) ==
      Recipients(users[..i], admin) + if IsAdmin(admin, users[i].id) then [] else [users[i]]
  {
    assert users[..i + 1][..i] == users[..i];
  }

  lemma PlanStep(done: seq<User>, u: User, kind: Kind, texts: map<Slot, string>)
    ensures Plan(done + [u], kind, texts) == Plan(done, kind, texts) + [Message(u.id, Route(kind, texts, u.language))]
  {
    assert (done + [u])[..|done|] == done;
  }

  lemma TallyStep(ms: seq<Message>, m: Message, send: Message -> Outcome)
    ensures TallyOf(ms + [m], send) == Add(TallyOf(ms, send), Classify(send(m)))
  {
    assert (ms + [m])[..|ms|] == ms;
  }

  // ---------------------------------------------------------------------------
  // Cleanup

  /** The database as the cleanup pass sees it. */
  datatype Tables = Tables(users: seq<User>, subs: Subs)

  /** A user is pruned when probing them is refused with 403. */
  predicate Pruned(probe: int -> Outcome, id: int) {
    probe(id) == Refused(Some(403))
  }

  /** The ids of a list of user rows. */
  function Ids(users: seq<User>): set<int> {
    set u | u in users :: u.id
  }

  /** The number of rows whose probe was refused with 403. */
  function PrunedRows(users: seq<User>, probe: int -> Outcome): nat
    decreases |users|
  {
    if |users| == 0 then 0
    else PrunedRows(users[..|users| - 1], probe) + if Pruned(probe, users[|users| - 1].id) then 1 else 0
  }

  /** Drops one user's rows. */
  function WithoutUser(users: seq<User>, id: int): (r: seq<User>)
    ensures forall u :: u in r <==> u in users && u.id != id
    decreases |users|
  {
    if |users| == 0 then []
    else WithoutUser(users[..|users| - 1], id) + if users[|users| - 1].id == id then [] else [users[|users| - 1]]
  }

  /** `adm_cleanup`: every user, the administrator included, is probed; a
      403 deletes the user's subscriptions and user row and counts one
      removal and one blocked user; any other failure changes nothing. */
  method Cleanup(db: Tables, log: Log, probe: int -> Outcome)
    returns (db': Tables, log': Log, removed: nat)
    ensures forall u :: u in db'.users <==> u in db.users && !Pruned(probe, u.id)
    ensures forall k :: k in db'.subs <==> k in db.subs && !(Pruned(probe, k.user) && k.user in Ids(db.users))
    ensures forall k :: k in db'.subs ==> db'.subs[k] == db.subs[k]
    ensures removed == PrunedRows(db.users, probe)
    ensures log' == log.(blocked := log.blocked + removed)
  {
    var users := db.users;
    var subs := db.subs;
    removed := 0;
    log' := log;
    for i := 0 to |db.users|
      invariant Swept(db, probe, Ids(db.users[..i]), users, subs)
      invariant removed == PrunedRows(db.users[..i], probe)
      invariant log' == log.(blocked := log.blocked + removed)
    {
      var u := db.users[i];
      PrunedRowsHead(db.users, i, u);
      SweptStep(db, probe, Ids(db.users[..i]), users, subs, u.id);
      if Pruned(probe, u.id) {
        subs := DropSubs(subs, u.id);
        users := WithoutUser(users, u.id);
        removed := removed + 1;
        log' := log'.(blocked := log'.blocked + 1);
      }
    }
    assert db.users[..|db.users|] == db.users;
    SweptDone(db, probe, users);
    db' := Tables(users, subs);
  }

  /** Drops one user's subscriptions. */
  function DropSubs(subs: Subs, id: int): (r: Subs)
    ensures forall k :: k in r <==> k in subs && k.user != id
    ensures forall k :: k in r ==> r[k] == subs[k]
  {
    map k | k in subs && k.user != id :: subs[k]
  }

  /** The tables once the users with ids in `seen` have been probed. */
  ghost predicate Swept(db: Tables, probe: int -> Outcome, seen: set<int>, users: seq<User>, subs: Subs) {
    && (forall u :: u in users <==> u in db.users && !(Pruned(probe, u.id) && u.id in seen))
    && (forall k :: k in subs <==> k in db.subs && !(Pruned(probe, k.user) && k.user in seen))
    && (forall k :: k in subs ==> subs[k] == db.subs[k])
  }

  lemma SweptStep(db: Tables, probe: int -> Outcome, seen: set<int>, users: seq<User>, subs: Subs, id: int)
    requires Swept(db, probe, seen, users, subs)
    ensures Pruned(probe, id) ==> Swept(db, probe, seen + {id}, WithoutUser(users, id), DropSubs(subs, id))
    ensures !Pruned(probe, id) ==> Swept(db, probe, seen + {id}, users, subs)
  {
  }

  lemma SweptDone(db: Tables, probe: int -> Outcome, users: seq<User>)
    requires forall u :: u in users <==> u in db.users && !(Pruned(probe, u.id) && u.id in Ids(db.users))
    ensures forall u :: u in users <==> u in db.users && !Pruned(probe, u.id)
  {
    forall u | u in db.users ensures u.id in Ids(db.users) {
    }
  }

  lemma PrunedRowsHead(users: seq<User>, i: nat, u: User)
    requires i < |users| && users[i] == u
    ensures users[..i + 1][..i] == users[..i]
    ensures Ids(users[..i + 1]) == Ids(users[..i]) + {u.id}
  {
    assert users[..i + 1] == users[..i] + [u];
  }
}
