/**
 The administrator's broadcast conversation: a single optional session that
 button presses (`adm_broadcast`, `bc_*`) and the administrator's free text
 move through choosing a kind, entering the text(s), previewing, editing and
 sending.
 */
module Broadcast {
  import opened Common
  import opened Text

  datatype Step = ChooseType | InputSingle | InputRu | InputEn | InputUz | Confirm

  /** One text for everybody, or one per language. */
  datatype Kind = Single | Multi

  /** The keys of the texts object: `all` for a single broadcast, the three languages otherwise. */
  datatype Slot = All | Ru | En | Uz

  /** A session just opened with `adm_broadcast` has no kind yet. */
  datatype Session = Session(step: Step, kind: Option<Kind>, texts: map<Slot, string>)

  /** The broadcast state: no session, or one. */
  type State = Option<Session>

  predicate IsAdmin(admin: Option<int>, user: int) {
    admin.Some? && user == admin.value
  }

  /** What a press leads to besides the new state. */
  datatype Effect = Nothing | Prompted | Send(kind: Kind, texts: map<Slot, string>)

  /** The presses that act on the broadcast state: the three start buttons and
      cancel always, an edit button while a session is open, and send at the
      preview. Every other press, the report and cleanup buttons included,
      leaves the state alone. */
  predicate Moves(s: State, data: string) {
    || data in {"adm_broadcast", "bc_cancel", "bc_multi", "bc_single"}
    || (s.Some? && data in {"bc_edit_single", "bc_edit_ru", "bc_edit_en", "bc_edit_uz"})
    || (s.Some? && s.value.step == Confirm && data == "bc_send")
  }

  /** A button press by `user` with callback data `data`. Only the
      administrator's presses of `bc_`/`adm_` buttons are handled here. */
  function Press(s: State, admin: Option<int>, user: int, data: string): (r: (State, Effect))
    ensures !(StartsWith(data, "bc_") || StartsWith(data, "adm_")) || !IsAdmin(admin, user) ==> r == (s, Nothing)
    ensures r.1.Send? ==>
      && r.0.None? && s.Some? && s.value.step == Confirm && data == "bc_send"
      && r.1 == Send(s.value.kind.GetOr(Single), s.value.texts)
    ensures IsAdmin(admin, user) && s.Some? ==>
      && (data == "bc_send" && s.value.step == Confirm ==> r == (None, Send(s.value.kind.GetOr(Single), s.value.texts)))
      && (data == "bc_edit_single" ==> r == (Some(s.value.(step := InputSingle)), Prompted))
      && (data == "bc_edit_ru" ==> r == (Some(s.value.(step := InputRu)), Prompted))
      && (data == "bc_edit_en" ==> r == (Some(s.value.(step := InputEn)), Prompted))
      && (data == "bc_edit_uz" ==> r == (Some(s.value.(step := InputUz)), Prompted))
    ensures !Moves(s, data) ==> r == (s, Nothing)
  {
    if !(StartsWith(data, "bc_") || StartsWith(data, "adm_")) || !IsAdmin(admin, user) then (s, Nothing)
    else if data == "adm_broadcast" then (Some(Session(ChooseType, None, map[])), Prompted)
    else if data == "bc_cancel" then (None, Prompted)
    else if data == "bc_multi" then (Some(Session(InputRu, Some(Multi), map[])), Prompted)
    else if data == "bc_single" then (Some(Session(InputSingle, Some(Single), map[])), Prompted)
    else if s.None? then (s, Nothing)
    else if data == "bc_edit_single" then (Some(s.value.(step := InputSingle)), Prompted)
    else if data == "bc_edit_ru" then (Some(s.value.(step := InputRu)), Prompted)
    else if data == "bc_edit_en" then (Some(s.value.(step := InputEn)), Prompted)
    else if data == "bc_edit_uz" then (Some(s.value.(step := InputUz)), Prompted)
    else if data == "bc_send" && s.value.step == Confirm then (None, Send(s.value.kind.GetOr(Single), s.value.texts))
    else (s, Nothing)
  }

  /** A text is present when it is set and non-empty. */
  predicate Filled(texts: map<Slot, string>, slot: Slot) {
    slot in texts && texts[slot] != ""
  }

  /** A message the text handler acts on: the administrator's non-empty,
      non-command text during a session. */
  predicate Handles(s: State, admin: Option<int>, user: int, text: Option<string>) {
    s.Some? && IsAdmin(admin, user) && text.Some? && text.value != "" && !StartsWith(text.value, "/")
  }

  /** A session waiting for a text of its own kind: a single one at its input
      step, a per-language one at one of the three language steps. */
  predicate TakesText(ses: Session) {
    || (ses.kind == Some(Single) && ses.step == InputSingle)
    || (ses.kind == Some(Multi) && ses.step in {InputRu, InputEn, InputUz})
  }

  /** A free-text message `text` (`None` for a message without text) from `user`. */
  function Message(s: State, admin: Option<int>, user: int, text: Option<string>): (r: State)
    ensures s.None? || !IsAdmin(admin, user) || text.None? || text.value == "" || StartsWith(text.value, "/") ==> r == s
    ensures r.Some? ==> s.Some? && r.value.kind == s.value.kind
    ensures Handles(s, admin, user, text) ==>
      var ses, t := s.value, text.value;
      var full := Filled(ses.texts, Ru) && Filled(ses.texts, En) && Filled(ses.texts, Uz);
      && (ses.kind == Some(Single) && ses.step == InputSingle ==>
            r == Some(Session(Confirm, ses.kind, ses.texts[All := t])))
      && (ses.kind == Some(Multi) && ses.step == InputRu ==>
            r == Some(Session(if full then Confirm else InputEn, ses.kind, ses.texts[Ru := t])))
      && (ses.kind == Some(Multi) && ses.step == InputEn ==>
            r == Some(Session(if full then Confirm else InputUz, ses.kind, ses.texts[En := t])))
      && (ses.kind == Some(Multi) && ses.step == InputUz ==>
            r == Some(Session(Confirm, ses.kind, ses.texts[Uz := t])))
      && (!TakesText(ses) ==> r == s)
  {
    if s.None? || !IsAdmin(admin, user) || text.None? || text.value == "" || StartsWith(text.value, "/") then s
    else
      var t := text.value;
      var ses := s.value;
      var editing := Filled(ses.texts, Ru) && Filled(ses.texts, En) && Filled(ses.texts, Uz);
      if ses.kind == Some(Single) && ses.step == InputSingle then
        Some(ses.(texts := ses.texts[All := t], step := Confirm))
      else if ses.kind == Some(Multi) && ses.step == InputRu then
        Some(ses.(texts := ses.texts[Ru := t], step := if editing then Confirm else InputEn))
      else if ses.kind == Some(Multi) && ses.step == InputEn then
        Some(ses.(texts := ses.texts[En := t], step := if editing then Confirm else InputUz))
      else if ses.kind == Some(Multi) && ses.step == InputUz then
        Some(ses.(texts := ses.texts[Uz := t], step := Confirm))
      else s
  }

  /** The `/cancel` command, matched anywhere in the text: the administrator's
      cancel ends any session. */
  function Cancel(s: State, admin: Option<int>, user: int, text: Option<string>): (r: State)
    ensures IsAdmin(admin, user) && text.Some? && Contains(text.value, "/cancel") ==> r.None?
    ensures !(IsAdmin(admin, user) && text.Some? && Contains(text.value, "/cancel")) ==> r == s
  {
    if IsAdmin(admin, user) && text.Some? && Contains(text.value, "/cancel") then None else s
  }

  /** An incoming message: the message handler runs first, then the `/cancel` command. */
  function Incoming(s: State, admin: Option<int>, user: int, text: Option<string>): State {
    Cancel(Message(s, admin, user, text), admin, user, text)
  }

  // ---------------------------------------------------------------------------
  // What every reachable session satisfies

  /** The texts a session of each kind may hold, all non-empty; a session at
      the preview has a kind and the text its last input step stored. */
  predicate Valid(s: State) {
    s.None? ||
    var ses := s.value;
    && (forall k :: k in ses.texts ==> ses.texts[k] != "")
    && (ses.kind.None? ==> ses.texts == map[])
    && (ses.kind == Some(Single) ==> ses.texts.Keys <= {All})
    && (ses.kind == Some(Multi) ==> All !in ses.texts)
    && (ses.step == ChooseType ==> ses.kind.None?)
    && (ses.step == Confirm ==> ses.kind.Some?)
    && (ses.step == Confirm && ses.kind == Some(Single) ==> Filled(ses.texts, All))
    && (ses.step == Confirm && ses.kind == Some(Multi) ==> Filled(ses.texts, Uz))
  }

  lemma PressValid(s: State, admin: Option<int>, user: int, data: string)
    requires Valid(s)
    ensures Valid(Press(s, admin, user, data).0)
  {
  }

  lemma IncomingValid(s: State, admin: Option<int>, user: int, text: Option<string>)
    requires Valid(s)
    ensures Valid(Incoming(s, admin, user, text))
  {
  }

  /** What `bc_send` hands over always has a text for the users it addresses:
      `all` for a single broadcast, the Uzbek text for a per-language one. */
  lemma SendHasText(s: State, admin: Option<int>, user: int, data: string)
    requires Valid(s)
    ensures var e := Press(s, admin, user, data).1;
      e.Send? ==> (e.kind == Single ==> Filled(e.texts, All)) && (e.kind == Multi ==> Filled(e.texts, Uz))
  {
  }

  // ---------------------------------------------------------------------------
  // The dialogue as the administrator goes through it

  /** `adm_broadcast`, `bc_multi` and `bc_single` start afresh whatever session
      was open, `bc_cancel` ends it; editing keeps the kind and the texts. */
  lemma PressResets(s: State, admin: int, data: string)
    ensures var r := Press(s, Some(admin), admin, data).0;
      && (data == "adm_broadcast" ==> r == Some(Session(ChooseType, None, map[])))
      && (data == "bc_multi" ==> r == Some(Session(InputRu, Some(Multi), map[])))
      && (data == "bc_single" ==> r == Some(Session(InputSingle, Some(Single), map[])))
      && (data == "bc_cancel" ==> r.None?)
      && (data in {"bc_edit_single", "bc_edit_ru", "bc_edit_en", "bc_edit_uz"} ==>
            (s.None? ==> r.None?) && (s.Some? ==> r.Some? && r.value.kind == s.value.kind && r.value.texts == s.value.texts))
  {
    if data in {"bc_edit_single", "bc_edit_ru", "bc_edit_en", "bc_edit_uz", "bc_multi", "bc_single", "bc_cancel"} {
      assert data[..3] == "bc_";
    } else if data == "adm_broadcast" {
      assert data[..4] == "adm_";
    }
  }

  /** Three texts typed after `bc_multi` reach the preview with the three
      languages stored, and `bc_send` hands exactly those over and ends the session. */
  lemma MultiDialogue(s: State, admin: int, ru: string, en: string, uz: string)
    requires ru != "" && en != "" && uz != ""
    requires !StartsWith(ru, "/") && !StartsWith(en, "/") && !StartsWith(uz, "/")
    requires !Contains(ru, "/cancel") && !Contains(en, "/cancel") && !Contains(uz, "/cancel")
    ensures var s1 := Press(s, Some(admin), admin, "bc_multi").0;
      var s2 := Incoming(s1, Some(admin), admin, Some(ru));
      var s3 := Incoming(s2, Some(admin), admin, Some(en));
      var s4 := Incoming(s3, Some(admin), admin, Some(uz));
      && s4 == Some(Session(Confirm, Some(Multi), map[Ru := ru, En := en, Uz := uz]))
      && Press(s4, Some(admin), admin, "bc_send") == (None, Send(Multi, map[Ru := ru, En := en, Uz := uz]))
  {
    PressResets(s, admin, "bc_multi");
    assert "bc_send"[..3] == "bc_";
  }

  /** A single text typed after `bc_single` reaches the preview; `bc_send` hands it over. */
  lemma SingleDialogue(s: State, admin: int, text: string)
    requires text != "" && !StartsWith(text, "/") && !Contains(text, "/cancel")
    ensures var s1 := Press(s, Some(admin), admin, "bc_single").0;
      var s2 := Incoming(s1, Some(admin), admin, Some(text));
      && s2 == Some(Session(Confirm, Some(Single), map[All := text]))
      && Press(s2, Some(admin), admin, "bc_send") == (None, Send(Single, map[All := text]))
  {
    PressResets(s, admin, "bc_single");
    assert "bc_send"[..3] == "bc_";
  }

  /** At the preview of a per-language broadcast, editing one language
      replaces only that text and goes straight back to the preview. */
  lemma EditReturnsToPreview(ru: string, en: string, uz: string, admin: int, slot: Slot, t: string)
    requires ru != "" && en != "" && uz != "" && slot != All
    requires t != "" && !StartsWith(t, "/") && !Contains(t, "/cancel")
    ensures var texts := map[Ru := ru, En := en, Uz := uz];
      var s := Some(Session(Confirm, Some(Multi), texts));
      var data := if slot == Ru then "bc_edit_ru" else if slot == En then "bc_edit_en" else "bc_edit_uz";
      var s1 := Press(s, Some(admin), admin, data).0;
      Incoming(s1, Some(admin), admin, Some(t)) == Some(Session(Confirm, Some(Multi), texts[slot := t]))
  {
    var texts := map[Ru := ru, En := en, Uz := uz];
    var s := Some(Session(Confirm, Some(Multi), texts));
    var data := if slot == Ru then "bc_edit_ru" else if slot == En then "bc_edit_en" else "bc_edit_uz";
    PressResets(s, admin, data);
  }

  /** Editing is accepted at any step of a session, so a per-language session
      can reach the preview holding only the Uzbek text: `bc_multi`, then the
      edit button for Uzbek (still clickable on an earlier preview), then one text. */
  lemma PreviewWithoutRussian(s: State, admin: int, uz: string)
    requires uz != "" && !StartsWith(uz, "/") && !Contains(uz, "/cancel")
    ensures var s1 := Press(s, Some(admin), admin, "bc_multi").0;
      var s2 := Press(s1, Some(admin), admin, "bc_edit_uz").0;
      var s3 := Incoming(s2, Some(admin), admin, Some(uz));
      && s3 == Some(Session(Confirm, Some(Multi), map[Uz := uz]))
      && Ru !in s3.value.texts
  {
    PressResets(s, admin, "bc_multi");
    PressResets(Press(s, Some(admin), admin, "bc_multi").0, admin, "bc_edit_uz");
  }

  /** Free text from anyone but the administrator, or starting with `/`,
      never moves the dialogue. */
  lemma IgnoredText(s: State, admin: Option<int>, user: int, text: string)
    requires !IsAdmin(admin, user) || (StartsWith(text, "/") && !Contains(text, "/cancel"))
    ensures Incoming(s, admin, user, Some(text)) == s
  {
  }
}
