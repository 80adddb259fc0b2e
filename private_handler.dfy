/**
  The private-chat dispatcher: a message's text is read as a command with
  arguments and routed through the message routes, with the photo reply as
  the fallback; callback data is read as `command:arg:...` and routed
  through the callback routes, and every callback query is answered.
*/
module PrivateHandler {
  import opened Wrappers
  import opened Text

  // ---- the route tables ----

  datatype Route = Start
  datatype CallbackRoute = Button1 | Button2 | Button3

  function Routes(): (r: map<string, Route>)
    ensures r.Keys == {"/start"}
  {
    map["/start" := Start]
  }

  function CallbackRoutes(): (r: map<string, CallbackRoute>)
    ensures r.Keys == {"button_1", "button_2", "button_3"}
    ensures forall a, b :: a in r && b in r && a != b ==> r[a] != r[b]
  {
    map["button_1" := Button1, "button_2" := Button2, "button_3" := Button3]
  }

  // ---- messages ----

  /** The parts of an incoming message the dispatcher looks at. */
  datatype Message = Message(text: string, hasPhoto: bool)

  /** A command as read from the text: the first field as written, its name
      with any `@botname` dropped, and the remaining fields. */
  datatype Command = Command(word: string, name: string, args: seq<string>)

  /** What handling a message comes to. `IndexPanic` is a text made only of
      whitespace: it has no fields, and taking the first one is out of range. */
  datatype Dispatch =
    | RouteTo(route: Route, args: seq<string>)
    | PhotoReply
    | Ignore
    | IndexPanic

  /** `/start@MyBot` becomes `/start`: everything from the first `@` is
      dropped, unless that `@` is the first character. */
  function StripBotName(cmd: string): (r: string)
    ensures |r| <= |cmd| && r == cmd[..|r|]
    ensures r == cmd <==> '@' !in cmd || cmd[0] == '@'
    ensures r != cmd ==> r != [] && '@' !in r && cmd[|r|] == '@'
  {
    match IndexByte(cmd, '@')
    case Some(i) => if i > 0 then cmd[..i] else cmd
    case None => cmd
  }

  lemma StripBotNameIdempotent(cmd: string)
    ensures StripBotName(StripBotName(cmd)) == StripBotName(cmd)
  {
  }

  /** The text trimmed and split on whitespace; `None` when it has no fields. */
  function ParseCommand(text: string): (r: Option<Command>)
    ensures r.None? <==> AllSpace(text)
    ensures r.Some? ==> r.value.name == StripBotName(r.value.word)
    ensures r.Some? ==> r.value.word != [] && NoSpace(r.value.word)
    ensures r.Some? ==> forall a :: a in r.value.args ==> a != [] && NoSpace(a)
    ensures r.Some? ==> Concat([r.value.word] + r.value.args) == Visible(text)
    ensures r.Some? ==>
      var t := TrimSpace(text);
      r.value.word == t[..WordLength(t)] && r.value.args == Fields(t[WordLength(t)..])
  {
    var fields := Fields(TrimSpace(text));
    FieldsEmpty(TrimSpace(text));
    TrimSpaceEmpty(text);
    TrimSpaceIdempotent(text);
    FieldsOfTrimmed(TrimSpace(text));
    TrimSpaceEmpty(TrimSpace(text));
    FieldsAreWords(TrimSpace(text));
    FieldsKeepVisible(TrimSpace(text));
    VisibleTrimSpace(text);
    if fields == [] then None
    else
      assert fields == [fields[0]] + fields[1..];
      assert fields[0] in fields;
      assert forall a :: a in fields[1..] ==> a in fields;
      Some(Command(fields[0], StripBotName(fields[0]), fields[1..]))
  }

  /** A trimmed text's fields are its leading word, then the fields of what follows it. */
  lemma FieldsOfTrimmed(t: string)
    requires TrimSpace(t) == t
    ensures t != [] ==> Fields(t) == [t[..WordLength(t)]] + Fields(t[WordLength(t)..])
  {
    TrimmedEnds(t);
    if t != [] {
      assert TrimLeft(t) == t;
    }
  }

  /** Words joined by spaces read back as the command named by the first
      word, with the other words as its arguments. */
  lemma ParseCommandJoin(ws: seq<string>)
    requires |ws| >= 1
    requires forall i :: 0 <= i < |ws| ==> ws[i] != [] && NoSpace(ws[i])
    ensures ParseCommand(Join(ws, ' ')) == Some(Command(ws[0], StripBotName(ws[0]), ws[1..]))
  {
    JoinTrimmed(ws);
    FieldsJoin(ws);
  }

  /** HandlerMessage: a routed command is dispatched and nothing else happens;
      otherwise a photo gets the photo reply. */
  function HandleMessage(m: Message): (d: Dispatch)
    ensures d == IndexPanic <==> m.text != [] && AllSpace(m.text)
    ensures d.RouteTo? <==> m.text != [] && ParseCommand(m.text).Some? && ParseCommand(m.text).value.name in Routes()
    ensures d.RouteTo? ==> d.route == Routes()[ParseCommand(m.text).value.name] && d.args == ParseCommand(m.text).value.args
    ensures d == PhotoReply <==> m.hasPhoto && !d.RouteTo? && d != IndexPanic
    ensures d == Ignore <==> !m.hasPhoto && !d.RouteTo? && d != IndexPanic
  {
    var routed :=
      if m.text == [] then None
      else match ParseCommand(m.text)
        case None => Some(IndexPanic)
        case Some(c) => if c.name in Routes() then Some(RouteTo(Routes()[c.name], c.args)) else None;
    if routed.Some? then routed.value
    else if m.hasPhoto then PhotoReply
    else Ignore
  }

  /** A text that is one word is that word as the command, with no arguments. */
  lemma OneWordCommand(w: string)
    requires w != [] && NoSpace(w)
    ensures ParseCommand(w) == Some(Command(w, StripBotName(w), []))
  {
    TrimSpaceNoSpace(w);
    FieldsOfWord(w);
  }

  /** A bare `/start` starts. */
  lemma StartCommand(hasPhoto: bool)
    ensures HandleMessage(Message("/start", hasPhoto)) == RouteTo(Start, [])
  {
    assert NoSpace("/start");
    OneWordCommand("/start");
  }

  /** So does `/start` addressed to a bot by name. */
  lemma StartAddressedCommand(bot: string, hasPhoto: bool)
    requires NoSpace(bot)
    ensures HandleMessage(Message("/start@" + bot, hasPhoto)) == RouteTo(Start, [])
  {
    var w := "/start@" + bot;
    forall i | 0 <= i < |w|
      ensures !IsSpace(w[i])
    {
      if i >= 7 {
        assert w[i] == bot[i - 7];
      }
    }
    OneWordCommand(w);
    assert w[6] == '@' && w[..6] == "/start";
    assert IndexByte(w, '@') == Some(6);
  }

  /** Words joined by spaces whose first word names a route are dispatched
      to that route, with the other words as arguments. */
  lemma RoutedWords(ws: seq<string>, hasPhoto: bool)
    requires |ws| >= 1
    requires forall i :: 0 <= i < |ws| ==> ws[i] != [] && NoSpace(ws[i])
    requires StripBotName(ws[0]) in Routes()
    ensures HandleMessage(Message(Join(ws, ' '), hasPhoto)) == RouteTo(Routes()[StripBotName(ws[0])], ws[1..])
  {
    ParseCommandJoin(ws);
    JoinTrimmed(ws);
  }

  /** `/start` is one word, and has no bot name to drop. */
  lemma StartWord()
    ensures NoSpace("/start") && StripBotName("/start") == "/start"
  {
    assert IndexByte("/start", '@') == None;
  }

  /** `/start` followed by space-separated words starts, with those words as arguments. */
  lemma StartWithArguments(args: seq<string>, hasPhoto: bool)
    requires forall i :: 0 <= i < |args| ==> args[i] != [] && NoSpace(args[i])
    ensures HandleMessage(Message(Join(["/start"] + args, ' '), hasPhoto)) == RouteTo(Start, args)
  {
    var ws := ["/start"] + args;
    StartWord();
    assert forall i :: 0 < i < |ws| ==> ws[i] == args[i - 1];
    RoutedWords(ws, hasPhoto);
    assert ws[1..] == args;
  }

  /** `/start foo` is `/start` and `foo` joined by a space. */
  lemma StartFooText()
    ensures Join(["/start", "foo"], ' ') == "/start foo"
  {
    var t := "/start foo";
    assert t[..6] == "/start" && t[6] == ' ' && t[7..] == "foo";
    assert t == t[..6] + [t[6]] + t[7..];
    assert ["/start", "foo"][1..] == ["foo"];
  }

  /** `/start foo` starts with the one argument `foo`. */
  lemma StartFoo(hasPhoto: bool)
    ensures HandleMessage(Message("/start foo", hasPhoto)) == RouteTo(Start, ["foo"])
  {
    assert NoSpace("foo");
    StartWithArguments(["foo"], hasPhoto);
    assert ["/start"] + ["foo"] == ["/start", "foo"];
    StartFooText();
  }

  // ---- callbacks ----

  datatype CallbackCommand = CallbackCommand(name: string, args: seq<string>)

  /** Callback data split on every `:`: the first part names the command. */
  function ParseCallback(data: string): (r: CallbackCommand)
    ensures ':' !in r.name && forall a :: a in r.args ==> ':' !in a
    ensures Join([r.name] + r.args, ':') == data
  {
    var parts := Split(data, ':');
    JoinSplit(data, ':');
    assert parts == [parts[0]] + parts[1..];
    CallbackCommand(parts[0], parts[1..])
  }

  /** Data written as `name:arg:...` reads back as that name and those arguments. */
  lemma ParseCallbackJoin(name: string, args: seq<string>)
    requires ':' !in name && forall a :: a in args ==> ':' !in a
    ensures ParseCallback(Join([name] + args, ':')) == CallbackCommand(name, args)
  {
    var parts := [name] + args;
    forall i | 0 <= i < |parts|
      ensures ':' !in parts[i]
    {
      if i > 0 {
        assert parts[i] == args[i - 1];
      }
    }
    SplitJoin(parts, ':');
    assert parts[1..] == args;
  }

  datatype CallbackEffect = RunCallback(route: CallbackRoute, args: seq<string>) | AnswerCallback(queryID: string)

  /** HandlerCallBackQuery: the routed handler runs, if any, and the query is
      answered in every case. */
  function HandleCallback(queryID: string, data: string): (effects: seq<CallbackEffect>)
    ensures |effects| >= 1 && effects[|effects| - 1] == AnswerCallback(queryID)
    ensures |effects| == 2 <==> ParseCallback(data).name in CallbackRoutes()
    ensures |effects| <= 2
    ensures |effects| == 2 ==> effects[0] == RunCallback(CallbackRoutes()[ParseCallback(data).name], ParseCallback(data).args)
  {
    var c := ParseCallback(data);
    (if c.name in CallbackRoutes() then [RunCallback(CallbackRoutes()[c.name], c.args)] else [])
      + [AnswerCallback(queryID)]
  }

  // ---- the start keyboard ----

  datatype Button = Button(text: string, data: string)

  /** The inline keyboard the start handler sends. */
  function StartKeyboard(): (k: seq<seq<Button>>)
    ensures |k| == 2 && |k[0]| == 2 && |k[1]| == 1
  {
    [[Button("Button 1", "button_1"), Button("Button 2", "button_2" + ":" + "arg_1")], [Button("Button 3", "button_3")]]
  }

  /** The data of the start keyboard's buttons, row by row. */
  function KeyboardData(k: seq<seq<Button>>): seq<string> {
    if k == [] then [] else RowData(k[0]) + KeyboardData(k[1..])
  }

  function RowData(row: seq<Button>): seq<string> {
    if row == [] then [] else [row[0].data] + RowData(row[1..])
  }

  lemma StartKeyboardData()
    ensures KeyboardData(StartKeyboard()) == ["button_1", "button_2" + ":" + "arg_1", "button_3"]
  {
    var k := StartKeyboard();
    assert k[0][1..][1..] == [] && k[1][1..] == [];
    assert RowData(k[0][1..]) == ["button_2" + ":" + "arg_1"];
    assert RowData(k[0]) == ["button_1", "button_2" + ":" + "arg_1"];
    assert RowData(k[1]) == ["button_3"];
    assert k[1..][1..] == [];
  }

  lemma StartKeyboardParses()
    ensures ParseCallback("button_1") == CallbackCommand("button_1", [])
    ensures ParseCallback("button_2" + ":" + "arg_1") == CallbackCommand("button_2", ["arg_1"])
    ensures ParseCallback("button_3") == CallbackCommand("button_3", [])
  {
    assert ':' !in "button_1" && ':' !in "button_3" && ':' !in "arg_1";
    SplitAfter("button_2", ':', "arg_1");
  }

  /** Every button of the start keyboard reaches a callback route (and by
      StartKeyboardParses the `button_2` one carries exactly one argument). */
  lemma StartKeyboardRoutes()
    ensures forall d :: d in KeyboardData(StartKeyboard()) ==> ParseCallback(d).name in CallbackRoutes()
  {
    StartKeyboardData();
    forall d | d in KeyboardData(StartKeyboard())
      ensures ParseCallback(d).name in CallbackRoutes()
    {
      StartKeyboardParses();
    }
  }
}
