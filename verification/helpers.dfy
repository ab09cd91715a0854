/**
 Rate text helpers: reading a rate out of scraped text, printing a rate with
 its digits grouped in threes, and the inline keyboards whose callback data
 the button handler splits back into an action and a currency code.
 */
module Helpers {
  import opened Common
  import opened Text
  import opened Currencies

  // ---------------------------------------------------------------------------
  // Reading a rate

  /** The letters of the word "сум" as a case-insensitive match without the
      `u` flag accepts them: every character whose upper case is the
      letter's capital, which for "с" also takes in the wide es U+1C83. */
  predicate IsEs(c: char) { c == '\U{441}' || c == '\U{421}' || c == '\U{1C83}' }
  predicate IsU(c: char) { c == '\U{443}' || c == '\U{423}' }
  predicate IsEm(c: char) { c == '\U{43C}' || c == '\U{41C}' }

  predicate SumAtStart(s: string) {
    |s| >= 3 && IsEs(s[0]) && IsU(s[1]) && IsEm(s[2])
  }

  /** Global case-insensitive removal of "сум": scan left to right, drop each
      non-overlapping occurrence; an occurrence that only forms once another
      has been dropped stays. */
  function RemoveSum(s: string): (r: string)
    ensures |r| <= |s|
    decreases |s|
  {
    if |s| == 0 then ""
    else if SumAtStart(s) then RemoveSum(s[3..])
    else [s[0]] + RemoveSum(s[1..])
  }

  lemma {:induction false} RemoveSumAbsent(s: string)
    requires forall i :: 0 <= i < |s| ==> !IsEs(s[i])
    ensures RemoveSum(s) == s
    decreases |s|
  {
    if |s| > 0 {
      RemoveSumAbsent(s[1..]);
    }
  }

  /** The text `parseInt` is given: "сум" and every white-space character removed, then trimmed. */
  function Cleaned(text: string): string
  {
    Trim(RemoveSpaces(RemoveSum(text)))
  }

  /** Trimming after every white-space character is gone changes nothing. */
  lemma CleanedIsSpaceFree(text: string)
    ensures Cleaned(text) == RemoveSpaces(RemoveSum(text))
  {
    RemoveSpacesSpaceFree(RemoveSum(text));
    TrimSpaceFree(RemoveSpaces(RemoveSum(text)));
  }

  lemma TrimSpaceFree(s: string)
    requires forall i :: 0 <= i < |s| ==> !IsSpace(s[i])
    ensures Trim(s) == s
  {
  }

  /** A rate read from scraped text; 0 when no integer can be read. */
  function ParseRate(text: string): int
  {
    ParseInt(Cleaned(text)).GetOr(0)
  }

  /** The rate is the leading run of digits of the cleaned text, up to the first non-digit. */
  lemma ParseRateReadsDigits(text: string, ds: string, rest: string)
    requires |ds| >= 1 && AllDigits(ds)
    requires |rest| == 0 || !IsDigit(rest[0])
    requires Cleaned(text) == ds + rest
    ensures ParseRate(text) == DigitsValue(ds)
  {
    ParseIntUnsigned(ds, rest);
  }

  /** A leading minus sign negates the rate. */
  lemma ParseRateReadsNegative(text: string, ds: string, rest: string)
    requires |ds| >= 1 && AllDigits(ds)
    requires |rest| == 0 || !IsDigit(rest[0])
    requires Cleaned(text) == ['-'] + (ds + rest)
    ensures ParseRate(text) == -(DigitsValue(ds) as int)
  {
    ParseIntSigned('-', ds, rest);
  }

  /** Without a digit after the optional sign there is nothing to read, and the rate is 0. */
  lemma ParseRateNoDigits(text: string)
    requires var u := Unsigned(Cleaned(text)); |u| == 0 || !IsDigit(u[0])
    ensures ParseRate(text) == 0
  {
    ParseIntNaN(Cleaned(text));
  }

  // ---------------------------------------------------------------------------
  // Printing a rate

  /** Digits with a space inserted before every group of three counted from the right. */
  function Group(ds: string): (r: string)
    requires AllDigits(ds)
    ensures forall i :: 0 <= i < |r| ==> IsDigit(r[i]) || r[i] == ' '
    decreases |ds|
  {
    if |ds| <= 3 then ds else Group(ds[..|ds| - 3]) + " " + ds[|ds| - 3..]
  }

  /** The decimal text of n with its digits grouped in threes; a negative n keeps its sign in front. */
  function FormatRate(n: int): (r: string)
    ensures forall i :: 0 <= i < |r| ==> IsDigit(r[i]) || r[i] == ' ' || r[i] == '-'
  {
    if n < 0 then "-" + Group(NatToString(-n)) else Group(NatToString(n))
  }

  /** The pieces between spaces: a leading group of one to three digits, then groups of exactly three. */
  predicate WellGrouped(parts: seq<string>) {
    && |parts| >= 1
    && 1 <= |parts[0]| <= 3
    && (forall i :: 1 <= i < |parts| ==> |parts[i]| == 3)
    && (forall i :: 0 <= i < |parts| ==> AllDigits(parts[i]))
  }

  lemma DigitsSpaceFree(ds: string)
    requires AllDigits(ds)
    ensures forall i :: 0 <= i < |ds| ==> !IsSpace(ds[i])
  {
    forall i | 0 <= i < |ds| ensures !IsSpace(ds[i]) {
      assert IsDigit(ds[i]);
    }
  }

  lemma {:induction false} GroupRemoveSpaces(ds: string)
    requires AllDigits(ds)
    ensures RemoveSpaces(Group(ds)) == ds
    decreases |ds|
  {
    if |ds| <= 3 {
      DigitsSpaceFree(ds);
      RemoveSpacesNone(ds);
    } else {
      var p, q := ds[..|ds| - 3], ds[|ds| - 3..];
      GroupRemoveSpaces(p);
      DigitsSpaceFree(q);
      RemoveSpacesNone(q);
      RemoveSpacesAppend(Group(p) + " ", q);
      RemoveSpacesAppend(Group(p), " ");
      assert RemoveSpaces(" ") == "";
      calc {
        RemoveSpaces(Group(ds));
        RemoveSpaces((Group(p) + " ") + q);
        RemoveSpaces(Group(p) + " ") + RemoveSpaces(q);
        (RemoveSpaces(Group(p)) + RemoveSpaces(" ")) + q;
        p + q;
        ds;
      }
    }
  }

  lemma {:induction false} GroupSplit(ds: string)
    requires 1 <= |ds| && AllDigits(ds)
    ensures WellGrouped(Split(Group(ds), ' '))
    decreases |ds|
  {
    if |ds| <= 3 {
      assert ' ' !in ds by {
        forall i | 0 <= i < |ds| ensures ds[i] != ' ' {
          assert IsDigit(ds[i]);
        }
      }
      SplitNoSep(ds, ' ');
    } else {
      var p, q := ds[..|ds| - 3], ds[|ds| - 3..];
      assert ' ' !in q by {
        forall i | 0 <= i < |q| ensures q[i] != ' ' {
          assert IsDigit(q[i]);
        }
      }
      GroupSplit(p);
      assert Group(ds) == Group(p) + [' '] + q;
      SplitLast(Group(p), q, ' ');
    }
  }

  /** Deleting the spaces from a printed rate leaves exactly the decimal digits (and sign) of the number. */
  lemma FormatRateDigits(n: int)
    ensures RemoveSpaces(FormatRate(n)) == (if n < 0 then "-" else "") + NatToString(if n < 0 then -n else n)
  {
    if n < 0 {
      GroupRemoveSpaces(NatToString(-n));
      RemoveSpacesAppend("-", Group(NatToString(-n)));
      RemoveSpacesNone("-");
    } else {
      GroupRemoveSpaces(NatToString(n));
    }
  }

  /** A printed natural number splits on spaces into a 1..3 digit head and 3-digit groups. */
  lemma FormatRateGroups(n: nat)
    ensures WellGrouped(Split(FormatRate(n), ' '))
  {
    GroupSplit(NatToString(n));
  }

  lemma {:induction false} NatToStringLength(n: nat)
    ensures n < 1000 <==> |NatToString(n)| <= 3
    decreases n
  {
    if n >= 10 {
      NatToStringLength(n / 10);
    }
  }

  /** A space appears in a printed natural number exactly when it has four or more digits. */
  lemma FormatRateSpaced(n: nat)
    ensures n < 1000 <==> ' ' !in FormatRate(n)
    ensures n < 1000 ==> FormatRate(n) == NatToString(n)
  {
    NatToStringLength(n);
    var ds := NatToString(n);
    if n >= 1000 {
      assert FormatRate(n)[|Group(ds[..|ds| - 3])|] == ' ';
    } else {
      assert ' ' !in ds by {
        forall i | 0 <= i < |ds| ensures ds[i] != ' ' {
          assert IsDigit(ds[i]);
        }
      }
    }
  }

  lemma FormatRateExample(n: int)
    requires n == 12750
    ensures FormatRate(n) == "12 750"
  {
    var ds := NatToString(n);
    DigitsValueExample();
    NatToStringOfValue("12750");
    assert ds == "12750";
    assert ds[..|ds| - 3] == "12" && ds[|ds| - 3..] == "750";
    assert Group(ds) == "12" + " " + "750";
  }

  /** Reading a printed rate gives the number back. */
  lemma ParseFormatRoundTrip(n: int)
    ensures ParseRate(FormatRate(n)) == n
  {
    var f := FormatRate(n);
    var m: nat := if n < 0 then -n else n;
    PrintedCleaned(n);
    NatToStringValue(m);
    if n < 0 {
      ParseRateReadsNegative(f, NatToString(m), "");
    } else {
      ParseRateReadsDigits(f, NatToString(m), "");
    }
  }

  /** What the rate parser reads from a printed rate: its sign and decimal digits. */
  lemma PrintedCleaned(n: int)
    ensures Cleaned(FormatRate(n)) == (if n < 0 then ['-'] else []) + (NatToString(if n < 0 then -n else n) + "")
  {
    var f := FormatRate(n);
    assert forall i :: 0 <= i < |f| ==> !IsEs(f[i]);
    RemoveSumAbsent(f);
    FormatRateDigits(n);
    CleanedIsSpaceFree(f);
  }

  lemma {:induction false} RemoveSumPrefix(a: string, b: string)
    requires forall i :: 0 <= i < |a| ==> !IsEs(a[i])
    ensures RemoveSum(a + b) == a + RemoveSum(b)
    decreases |a|
  {
    if |a| > 0 {
      assert !SumAtStart(a + b) by {
        assert (a + b)[0] == a[0];
      }
      assert (a + b)[1..] == a[1..] + b;
      RemoveSumPrefix(a[1..], b);
      calc {
        RemoveSum(a + b);
        [(a + b)[0]] + RemoveSum((a + b)[1..]);
        [a[0]] + (a[1..] + RemoveSum(b));
        { assert a == [a[0]] + a[1..]; }
        a + RemoveSum(b);
      }
    } else {
      assert a + b == b;
    }
  }

  lemma RemoveSumExample()
    ensures RemoveSum("12 750.5 \U{441}\U{443}\U{43C}") == "12 750.5 "
  {
    var a, b := "12 750.5 ", "\U{441}\U{443}\U{43C}";
    assert SumAtStart(b);
    assert RemoveSum(b) == "";
    RemoveSumPrefix(a, b);
    assert a + b == "12 750.5 \U{441}\U{443}\U{43C}";
  }

  /** Two space-free words each followed by a space lose only the two spaces. */
  lemma RemoveSpacesWords(a: string, b: string)
    requires forall i :: 0 <= i < |a| ==> !IsSpace(a[i])
    requires forall i :: 0 <= i < |b| ==> !IsSpace(b[i])
    ensures RemoveSpaces(a + (" " + (b + " "))) == a + b
  {
    RemoveSpacesNone(a);
    RemoveSpacesNone(b);
    assert RemoveSpaces(" ") == "";
    RemoveSpacesAppend(b, " ");
    RemoveSpacesAppend(" ", b + " ");
    RemoveSpacesAppend(a, " " + (b + " "));
  }

  lemma RemoveSpacesExample(s: string)
    requires s == "12" + (" " + ("750.5" + " "))
    ensures RemoveSpaces(s) == "12750.5"
  {
    RemoveSpacesWords("12", "750.5");
  }

  lemma CleanedExample(text: string)
    requires text == "12 750.5 \U{441}\U{443}\U{43C}"
    ensures Cleaned(text) == "12750.5"
  {
    RemoveSumExample();
    assert RemoveSum(text) == "12" + (" " + ("750.5" + " "));
    RemoveSpacesExample(RemoveSum(text));
    CleanedIsSpaceFree(text);
  }

  lemma DigitsValueExample()
    ensures DigitsValue("12750") == 12750
  {
    assert "12"[..1] == "1";
    assert "127"[..2] == "12";
    assert "1275"[..3] == "127";
    assert "12750"[..4] == "1275";
    assert DigitsValue("1") == 1;
    assert DigitsValue("12") == 12;
    assert DigitsValue("127") == 127;
    assert DigitsValue("1275") == 1275;
  }

  /** The worked example of the rate parser: a bank's "12 750.5 сум" reads as 12750. */
  lemma ParseRateExample(text: string)
    requires text == "12 750.5 \U{441}\U{443}\U{43C}"
    ensures ParseRate(text) == 12750
  {
    CleanedExample(text);
    DigitsValueExample();
    assert "12750.5" == "12750" + ".5";
    ParseRateReadsDigits(text, "12750", ".5");
  }



  // ---------------------------------------------------------------------------
  // Keyboards and callback data

  /** What a button shows; the language-specific words are left abstract. */
  datatype Label =
    | CurrencyLabel(code: Code)
    | NavLabel(view: View)
    | SubscribeLabel
    | UnsubscribeLabel
    | HourLabel(hour: nat)

  datatype Button = Button(caption: Label, data: string)

  /** Rows of buttons, top to bottom. */
  type Keyboard = seq<seq<Button>>

  /** Callback data of the form `action_CODE`. */
  function CallbackData(action: string, code: Code): string {
    action + "_" + Name(code)
  }

  /** One row with a button per currency, in table order, each carrying `action_CODE`. */
  function CurrencyKeyboard(action: string): (kb: Keyboard)
    ensures |kb| == 1 && |kb[0]| == |Codes|
    ensures forall i :: 0 <= i < |Codes| ==> kb[0][i] == Button(CurrencyLabel(Codes[i]), CallbackData(action, Codes[i]))
  {
    [seq(|Codes|, i requires 0 <= i < |Codes| => Button(CurrencyLabel(Codes[i]), CallbackData(action, Codes[i])))]
  }

  /** The four views of one currency, in the order the navigation row lists them. */
  datatype View = Kurs | Banks | SpreadView | HistoryView {
    /** The action word of the view in callback data. */
    function Key(): (k: string)
      ensures |k| >= 1 && '_' !in k
      ensures k != "bc" && k != "adm" && k != "sub" && k != "subt"
    {
      match this
      case Kurs => "kurs"
      case Banks => "banks"
      case SpreadView => "spread"
      case HistoryView => "history"
    }

    /** Position in the navigation row. */
    function Index(): nat {
      match this
      case Kurs => 0
      case Banks => 1
      case SpreadView => 2
      case HistoryView => 3
    }
  }

  const Views: seq<View> := [Kurs, Banks, SpreadView, HistoryView]

  /** The view an action word names, if any. */
  function ViewOf(action: string): (v: Option<View>)
    ensures v.Some? ==> v.value.Key() == action
    ensures forall w: View :: w.Key() == action ==> v == Some(w)
  {
    if action == "kurs" then Some(Kurs)
    else if action == "banks" then Some(Banks)
    else if action == "spread" then Some(SpreadView)
    else if action == "history" then Some(HistoryView)
    else None
  }

  function NavButton(v: View, code: Code): Button {
    Button(NavLabel(v), CallbackData(v.Key(), code))
  }

  /** The buttons for `views`, skipping the view currently shown. */
  function NavRow(views: seq<View>, code: Code, current: View): (row: seq<Button>)
    ensures |row| <= |views|
    decreases |views|
  {
    if |views| == 0 then []
    else if views[0] == current then NavRow(views[1..], code, current)
    else [NavButton(views[0], code)] + NavRow(views[1..], code, current)
  }

  /** The row holds exactly the navigation buttons of the listed views other than the current one. */
  lemma {:induction false} NavRowMembers(views: seq<View>, code: Code, current: View)
    ensures forall b :: b in NavRow(views, code, current) <==>
      exists v :: v in views && v != current && b == NavButton(v, code)
  {
    forall b | b in NavRow(views, code, current)
      ensures exists v :: v in views && v != current && b == NavButton(v, code)
    {
      var v := NavRowSource(views, code, current, b);
    }
    forall v | v in views && v != current
      ensures NavButton(v, code) in NavRow(views, code, current)
    {
      NavRowHas(views, code, current, v);
    }
  }

  /** Every button of the row comes from a listed view other than the current one. */
  lemma {:induction false} NavRowSource(views: seq<View>, code: Code, current: View, b: Button) returns (v: View)
    requires b in NavRow(views, code, current)
    ensures v in views && v != current && b == NavButton(v, code)
    decreases |views|
  {
    if views[0] != current && b == NavButton(views[0], code) {
      v := views[0];
    } else {
      v := NavRowSource(views[1..], code, current, b);
      assert v == views[1..][IndexOf(views[1..], v)];
    }
  }

  /** Every listed view other than the current one has its button in the row. */
  lemma {:induction false} NavRowHas(views: seq<View>, code: Code, current: View, v: View)
    requires v in views && v != current
    ensures NavButton(v, code) in NavRow(views, code, current)
    decreases |views|
  {
    if views[0] != v {
      assert v in views[1..] by {
        var k := IndexOf(views, v);
        assert views[1..][k - 1] == v;
      }
      NavRowHas(views[1..], code, current, v);
    }
  }

  function IndexOf(views: seq<View>, v: View): (k: nat)
    requires v in views
    ensures k < |views| && views[k] == v
  {
    if views[0] == v then 0 else 1 + IndexOf(views[1..], v)
  }

  /** Every button of the row sits after position `k` when every listed view does. */
  lemma {:induction false} NavRowAbove(views: seq<View>, code: Code, current: View, k: nat)
    requires forall i :: 0 <= i < |views| ==> k < views[i].Index()
    ensures forall i :: 0 <= i < |NavRow(views, code, current)| ==> k < ViewIndex(NavRow(views, code, current)[i])
    decreases |views|
  {
    if |views| > 0 {
      NavRowAbove(views[1..], code, current, k);
      assert forall i :: 0 <= i < |views[1..]| ==> views[1..][i] == views[i + 1];
    }
  }

  /** The row keeps the order of `views`. */
  lemma {:induction false} NavRowOrdered(views: seq<View>, code: Code, current: View)
    requires forall i, j :: 0 <= i < j < |views| ==> views[i].Index() < views[j].Index()
    ensures Ascending(NavRow(views, code, current))
    decreases |views|
  {
    if |views| > 0 {
      var rest := NavRow(views[1..], code, current);
      NavRowOrdered(views[1..], code, current);
      NavRowAbove(views[1..], code, current, views[0].Index());
      if views[0] != current {
        var row := NavRow(views, code, current);
        assert row == [NavButton(views[0], code)] + rest;
        forall i, j | 0 <= i < j < |row| ensures ViewIndex(row[i]) < ViewIndex(row[j]) {
          assert row[j] == rest[j - 1];
          if i > 0 {
            assert row[i] == rest[i - 1];
          }
        }
      }
    }
  }

  /** The buttons' views appear in strictly increasing row position. */
  predicate Ascending(row: seq<Button>) {
    forall i, j :: 0 <= i < j < |row| ==> ViewIndex(row[i]) < ViewIndex(row[j])
  }

  /** The position of a button's view in the navigation row; 0 for a button that is not a view. */
  function ViewIndex(b: Button): nat {
    if b.caption.NavLabel? then b.caption.view.Index() else 0
  }

  /** The navigation keyboard under a currency view: the other views, then subscribe/unsubscribe. */
  function NavKeyboard(code: Code, current: View, subscribed: bool): (kb: Keyboard)
    ensures |kb| == 2
    ensures kb[1] == [Button(if subscribed then UnsubscribeLabel else SubscribeLabel, CallbackData("sub", code))]
  {
    [NavRow(Views, code, current), [Button(if subscribed then UnsubscribeLabel else SubscribeLabel, CallbackData("sub", code))]]
  }

  /** The navigation row offers the three views other than the one shown, in the order kurs, banks, spread, history. */
  lemma NavKeyboardRow(code: Code, current: View, subscribed: bool)
    ensures var row := NavKeyboard(code, current, subscribed)[0];
      && |row| == 3
      && (forall v: View :: v != current <==> NavButton(v, code) in row)
      && Ascending(row)
  {
    NavRowOrdered(Views, code, current);
    NavRowLength(code, current);
    forall v: View ensures v != current <==> NavButton(v, code) in NavRow(Views, code, current) {
      NavRowOffers(code, current, v);
    }
  }

  lemma NavRowOffers(code: Code, current: View, v: View)
    ensures v != current <==> NavButton(v, code) in NavRow(Views, code, current)
  {
    if v != current {
      ViewListed(v);
      NavRowHas(Views, code, current, v);
    } else if NavButton(v, code) in NavRow(Views, code, current) {
      var w := NavRowSource(Views, code, current, NavButton(v, code));
      assert false;
    }
  }

  /** Every view is listed in the navigation order. */
  lemma ViewListed(v: View)
    ensures v in Views
  {
    assert Views[v.Index()] == v;
  }

  lemma NavRowLength(code: Code, current: View)
    ensures |NavRow(Views, code, current)| == 3
  {
    assert Views[1..] == [Banks, SpreadView, HistoryView];
    assert Views[2..] == [SpreadView, HistoryView];
    assert Views[3..] == [HistoryView];
    assert Views[4..] == [];
    assert Views[1..][1..] == Views[2..];
    assert Views[2..][1..] == Views[3..];
    assert Views[3..][1..] == Views[4..];
  }

  /** How the button handler reads callback data: split on `_`, first piece
      the action, second the currency code, third an optional argument. */
  datatype Callback = Callback(action: string, code: Option<string>, arg: Option<string>)

  function ParseCallback(data: string): (cb: Callback)
    ensures '_' !in cb.action
    ensures cb.code.Some? ==> '_' !in cb.code.value
    ensures cb.arg.Some? ==> cb.code.Some?
  {
    var parts := Split(data, '_');
    Callback(parts[0], if |parts| > 1 then Some(parts[1]) else None, if |parts| > 2 then Some(parts[2]) else None)
  }

  lemma CodeNameNoUnderscore(code: Code)
    ensures '_' !in Name(code)
  {
    var s := Name(code);
    forall i | 0 <= i < |s| ensures s[i] != '_' {
      assert 'A' <= s[i] <= 'Z';
    }
  }

  /** Callback data `action_CODE` splits back into its action and code. */
  lemma CallbackRoundTrip(action: string, code: Code)
    requires '_' !in action
    ensures ParseCallback(CallbackData(action, code)) == Callback(action, Some(Name(code)), None)
    ensures Lookup(ParseCallback(CallbackData(action, code)).code.value) == Some(code)
  {
    CodeNameNoUnderscore(code);
    assert CallbackData(action, code) == Join([action, Name(code)], '_');
    SplitJoin([action, Name(code)], '_');
  }

  /** `action_CODE_arg` splits back into its three pieces. */
  lemma CallbackArgRoundTrip(action: string, code: Code, arg: string)
    requires '_' !in action && '_' !in arg
    ensures ParseCallback(CallbackData(action, code) + "_" + arg) == Callback(action, Some(Name(code)), Some(arg))
  {
    CodeNameNoUnderscore(code);
    var parts := [action, Name(code), arg];
    assert Join(parts[1..], '_') == Name(code) + "_" + arg by {
      assert parts[1..][1..] == [arg];
    }
    assert CallbackData(action, code) + "_" + arg == Join(parts, '_');
    SplitJoin([action, Name(code), arg], '_');
  }

  /** The prefixes reserved for the administrator's buttons. */
  predicate IsAdminData(data: string) {
    StartsWith(data, "bc_") || StartsWith(data, "adm_")
  }

  /** Every button of the currency and navigation keyboards reaches the user
      button handler (no administrator prefix) and splits back into the view
      it names and the currency it was built for. */
  lemma KeyboardCallbacksRoundTrip(v: View, code: Code, current: View, subscribed: bool)
    ensures var row := CurrencyKeyboard(v.Key())[0];
      forall i :: 0 <= i < |row| ==>
        !IsAdminData(row[i].data) && ParseCallback(row[i].data) == Callback(v.Key(), Some(Name(Codes[i])), None)
    ensures forall w: View :: NavButton(w, code) in NavKeyboard(code, current, subscribed)[0] ==>
      !IsAdminData(NavButton(w, code).data) && ParseCallback(NavButton(w, code).data) == Callback(w.Key(), Some(Name(code)), None)
    ensures var sub := NavKeyboard(code, current, subscribed)[1][0];
      !IsAdminData(sub.data) && ParseCallback(sub.data) == Callback("sub", Some(Name(code)), None)
  {
    var action := v.Key();
    var row := CurrencyKeyboard(action)[0];
    forall i | 0 <= i < |row|
      ensures !IsAdminData(row[i].data) && ParseCallback(row[i].data) == Callback(action, Some(Name(Codes[i])), None)
    {
      CallbackRoundTrip(action, Codes[i]);
      NotAdminData(action, Codes[i]);
    }
    forall w: View
      ensures !IsAdminData(NavButton(w, code).data) && ParseCallback(NavButton(w, code).data) == Callback(w.Key(), Some(Name(code)), None)
    {
      CallbackRoundTrip(w.Key(), code);
      NotAdminData(w.Key(), code);
    }
    CallbackRoundTrip("sub", code);
    NotAdminData("sub", code);
  }

  lemma NotAdminData(action: string, code: Code)
    requires '_' !in action && action != "bc" && action != "adm"
    ensures !IsAdminData(CallbackData(action, code))
  {
    var d := CallbackData(action, code);
    assert d[|action|] == '_';
    assert d[..|action|] == action;
    if |action| >= 4 {
      assert d[2] == action[2] && d[3] == action[3];
    } else if |action| == 3 {
      assert d[2] == action[2] && d[..3] == action;
    } else if |action| == 2 {
      assert d[..2] == action;
    }
  }
}
