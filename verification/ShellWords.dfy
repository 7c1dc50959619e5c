/**
 The hook command handed to `/bin/sh -c`: a shell string whose quoted and unquoted parts must come out as
 the intended argument list.
 */
module ShellWords {
  import opened Basics

  // ----- how a shell reads words (sections 2.2.1, 2.2.2 and 2.3 of the POSIX Shell Command Language) -----

  predicate IsBlank(c: char) { c == ' ' || c == '\t' }

  /** The characters section 2.2 has an application quote, always or under circumstances. */
  predicate IsSpecial(c: char)
  {
    || c == '|' || c == '&' || c == ';' || c == '<' || c == '>' || c == '(' || c == ')' || c == '$' || c == '`'
    || c == '\\' || c == '"' || c == '\'' || c == ' ' || c == '\t' || c == '\n'
    || c == '*' || c == '?' || c == '[' || c == '#' || c == '~' || c == '=' || c == '%'
  }

  datatype Mode = Bare | Quoted | Escaped

  function Grown(word: Option<string>, more: string): (word': Option<string>)
  {
    Some((if word.Some? then word.value else "") + more)
  }

  function Prepend(word: Option<string>, words: Option<seq<string>>): (r: Option<seq<string>>)
  {
    if words.None? || word.None? then words else Some([word.value] + words.value)
  }

  /**
   The words of the text from here on, `word` being the one begun. `None` when a quote is left open, or when
   an unquoted special character makes it more than a list of words.
   */
  function Lex(text: string, mode: Mode, word: Option<string>): (words: Option<seq<string>>)
    decreases |text|
  {
    if text == [] then if mode == Bare then Prepend(word, Some([])) else None
    else
      var c, rest := text[0], text[1..];
      match mode
      case Quoted => if c == '\'' then Lex(rest, Bare, word) else Lex(rest, Quoted, Grown(word, [c]))
      case Escaped => if c == '\n' then Lex(rest, Bare, word) else Lex(rest, Bare, Grown(word, [c]))
      case Bare =>
        if IsBlank(c) then Prepend(word, Lex(rest, Bare, None))
        else if c == '\'' then Lex(rest, Quoted, Grown(word, ""))
        else if c == '\\' then Lex(rest, Escaped, word)
        else if IsSpecial(c) then None
        else Lex(rest, Bare, Grown(word, [c]))
  }

  function Words(text: string): (words: Option<seq<string>>)
  {
    Lex(text, Bare, None)
  }

  // ----- quoting -----

  /** Each single quote closed, escaped and reopened. */
  function Replaced(arg: string): (text: string)
  {
    if arg == [] then "" else (if arg[0] == '\'' then "'\\''" else [arg[0]]) + Replaced(arg[1..])
  }

  function ShellQuote(arg: string): (text: string)
  {
    "'" + Replaced(arg) + "'"
  }

  lemma GrownTwice(word: Option<string>, a: string, b: string)
    ensures Grown(Grown(word, a), b) == Grown(word, a + b)
  {
    var w := if word.Some? then word.value else "";
    assert w + a + b == w + (a + b);
  }

  lemma ReopenedQuote(rest: string, word: Option<string>)
    ensures Lex("'\\''" + rest, Quoted, word) == Lex(rest, Quoted, Grown(word, "'"))
  {
    var text := "'\\''" + rest;
    assert text[1..] == "\\''" + rest && text[1..][1..] == "''" + rest;
    assert text[1..][1..][1..] == "'" + rest && text[1..][1..][1..][1..] == rest;
    assert Lex("'" + rest, Bare, Grown(word, "'")) == Lex(rest, Quoted, Grown(Grown(word, "'"), ""));
    GrownTwice(word, "'", "");
    assert "'" + "" == "'";
    assert Lex("''" + rest, Escaped, word) == Lex("'" + rest, Bare, Grown(word, "'"));
    assert Lex("\\''" + rest, Bare, word) == Lex("''" + rest, Escaped, word);
  }

  lemma {:induction false} QuotedRun(arg: string, rest: string, word: Option<string>)
    ensures Lex(Replaced(arg) + "'" + rest, Quoted, word) == Lex(rest, Bare, if arg == "" then word else Grown(word, arg))
    decreases |arg|
  {
    if arg == [] {
      assert Replaced(arg) + "'" + rest == "'" + rest && ("'" + rest)[1..] == rest;
    } else {
      var more := Replaced(arg[1..]) + "'" + rest;
      QuotedRun(arg[1..], rest, Grown(word, [arg[0]]));
      GrownTwice(word, [arg[0]], arg[1..]);
      assert [arg[0]] + arg[1..] == arg && (arg[1..] == "" ==> arg == [arg[0]]);
      if arg[0] == '\'' {
        assert Replaced(arg) + "'" + rest == "'\\''" + more;
        ReopenedQuote(more, word);
      } else {
        assert Replaced(arg) + "'" + rest == [arg[0]] + more;
        assert ([arg[0]] + more)[1..] == more;
      }
    }
  }

  /** A quoted argument, wherever it stands, adds exactly itself to the word and leaves the rest alone. */
  lemma QuoteReads(arg: string, rest: string, word: Option<string>)
    ensures Lex(ShellQuote(arg) + rest, Bare, word) == Lex(rest, Bare, Grown(word, arg))
  {
    var text := ShellQuote(arg) + rest;
    assert text[1..] == Replaced(arg) + "'" + rest;
    QuotedRun(arg, rest, Grown(word, ""));
    GrownTwice(word, "", arg);
    assert "" + arg == arg;
  }

  /** The shell reads a quoted string as the single word that was quoted, for every string. */
  lemma ShellReadsQuoteBack(arg: string)
    ensures Words(ShellQuote(arg)) == Some([arg])
  {
    QuoteReads(arg, "", None);
    assert ShellQuote(arg) + "" == ShellQuote(arg) && "" + arg == arg && [arg] + [] == [arg];
  }

  // ----- a line of arguments -----

  /** A word written as it is, or quoted. */
  datatype Arg = AsIs(value: string) | InQuotes(value: string)

  predicate IsPlain(word: string)
  {
    word != "" && forall c | c in word :: !IsSpecial(c)
  }

  function ArgText(a: Arg): (text: string)
  {
    if a.AsIs? then a.value else ShellQuote(a.value)
  }

  function Line(args: seq<Arg>): (text: string)
  {
    if args == [] then "" else if |args| == 1 then ArgText(args[0]) else ArgText(args[0]) + " " + Line(args[1..])
  }

  function Values(args: seq<Arg>): (values: seq<string>)
  {
    if args == [] then [] else [args[0].value] + Values(args[1..])
  }

  lemma {:induction false} PlainReads(w: string, rest: string, word: Option<string>)
    requires forall c | c in w :: !IsSpecial(c)
    ensures Lex(w + rest, Bare, word) == Lex(rest, Bare, if w == "" then word else Grown(word, w))
    decreases |w|
  {
    if w == [] {
      assert w + rest == rest;
    } else {
      assert w[0] in w && forall c | c in w[1..] :: c in w;
      assert (w + rest)[1..] == w[1..] + rest && (w + rest)[0] == w[0];
      PlainReads(w[1..], rest, Grown(word, [w[0]]));
      GrownTwice(word, [w[0]], w[1..]);
      assert [w[0]] + w[1..] == w && (w[1..] == "" ==> w == [w[0]]);
    }
  }

  lemma ArgReads(a: Arg, rest: string)
    requires a.AsIs? ==> IsPlain(a.value)
    ensures Lex(ArgText(a) + rest, Bare, None) == Lex(rest, Bare, Some(a.value))
  {
    assert "" + a.value == a.value;
    if a.AsIs? {
      PlainReads(a.value, rest, None);
    } else {
      QuoteReads(a.value, rest, None);
    }
  }

  /** A line of quoted and plain arguments splits into exactly their values. */
  lemma {:induction false} LineReadsBack(args: seq<Arg>)
    requires forall a | a in args :: a.AsIs? ==> IsPlain(a.value)
    ensures Words(Line(args)) == Some(Values(args))
  {
    if args != [] {
      var a := args[0];
      assert a in args && forall x | x in args[1..] :: x in args;
      LineReadsBack(args[1..]);
      if |args| == 1 {
        ArgReads(a, "");
        assert ArgText(a) + "" == ArgText(a);
        assert Values(args[1..]) == [];
      } else {
        var rest := " " + Line(args[1..]);
        ArgReads(a, rest);
        assert ArgText(a) + " " + Line(args[1..]) == ArgText(a) + rest;
        assert rest[1..] == Line(args[1..]);
      }
    }
  }

  // ----- the hook command -----

  const AWAIT_CLIENT_MARGIN_SECS: nat := 5

  datatype Params = Params(
    toolsPath: string,
    daemonUrl: string,
    sessionId: string,
    osUser: string,
    hookToken: string,
    daemonSocket: Option<string>,
    answerWaitSecs: nat)

  function DaemonSocketArg(p: Params): (text: string)
  {
    if p.daemonSocket.Some? then " --daemon-socket " + ShellQuote(p.daemonSocket.value) else ""
  }

  predicate IsEvent(event: string)
  {
    event in {"SessionStart", "UserPromptSubmit", "PostToolUse", "Notification", "PermissionRequest",
              "PreToolUse", "Stop", "SessionEnd"}
  }

  /** `PreToolUse` is installed for the question tool alone, so both of these wait for an answer. */
  predicate AwaitsAnAnswer(event: string) { event == "PermissionRequest" || event == "PreToolUse" }

  /** The command string of the hook for `event`. */
  function HookCommand(p: Params, event: string): (text: string)
  {
    var cmd := ShellQuote(p.toolsPath) + " session-hook --session " + p.sessionId + " --daemon " + p.daemonUrl
               + DaemonSocketArg(p) + " --os-user " + p.osUser + " --hook-token " + p.hookToken + " --event " + event;
    if AwaitsAnAnswer(event) then
      cmd + " --await-answer --await-timeout-secs " + Decimal(p.answerWaitSecs + AWAIT_CLIENT_MARGIN_SECS)
    else cmd
  }

  /** The arguments up to the daemon's URL, and those after the socket. */
  function HookArgs(p: Params, event: string): (args: seq<Arg>)
  {
    var head := [InQuotes(p.toolsPath), AsIs("session-hook")] + Flag("--session", AsIs(p.sessionId))
                + Flag("--daemon", AsIs(p.daemonUrl));
    var addressed := if p.daemonSocket.Some? then head + Flag("--daemon-socket", InQuotes(p.daemonSocket.value)) else head;
    var named := addressed + Flag("--os-user", AsIs(p.osUser)) + Flag("--hook-token", AsIs(p.hookToken))
                 + Flag("--event", AsIs(event));
    if AwaitsAnAnswer(event) then
      named + [AsIs("--await-answer")]
      + Flag("--await-timeout-secs", AsIs(Decimal(p.answerWaitSecs + AWAIT_CLIENT_MARGIN_SECS)))
    else named
  }

  function Flag(name: string, value: Arg): (args: seq<Arg>)
  {
    [AsIs(name), value]
  }

  lemma {:induction false} LineAppend(a: seq<Arg>, b: seq<Arg>)
    requires a != [] && b != []
    ensures Line(a + b) == Line(a) + " " + Line(b)
  {
    assert (a + b)[0] == a[0] && (a + b)[1..] == a[1..] + b;
    if |a| == 1 {
      assert a[1..] + b == b;
    } else {
      LineAppend(a[1..], b);
      assert ArgText(a[0]) + " " + (Line(a[1..]) + " " + Line(b)) == ArgText(a[0]) + " " + Line(a[1..]) + " " + Line(b);
    }
  }

  lemma LineFlag(args: seq<Arg>, name: string, value: Arg)
    requires args != []
    ensures Line(args + Flag(name, value)) == Line(args) + (" " + name + " ") + ArgText(value)
  {
    LineAppend(args, Flag(name, value));
    FlagText(name, value);
    Regroup(Line(args), name, ArgText(value));
  }

  lemma FlagText(name: string, value: Arg)
    ensures Line(Flag(name, value)) == name + " " + ArgText(value)
  {
    assert Flag(name, value)[1..] == [value];
    assert Line([value]) == ArgText(value);
  }

  lemma Regroup(a: string, b: string, c: string)
    ensures a + " " + (b + " " + c) == a + (" " + b + " ") + c
  {
  }

  lemma HeadText(p: Params)
    ensures Line([InQuotes(p.toolsPath), AsIs("session-hook")] + Flag("--session", AsIs(p.sessionId)))
         == ShellQuote(p.toolsPath) + " session-hook --session " + p.sessionId
  {
    var two, path := [InQuotes(p.toolsPath), AsIs("session-hook")], ShellQuote(p.toolsPath);
    assert two[1..] == [AsIs("session-hook")] && Line(two) == path + " " + "session-hook";
    LineFlag(two, "--session", AsIs(p.sessionId));
    HeadWords();
    Associate(path, " ", "session-hook");
    Associate(path, " " + "session-hook", " " + "--session" + " ");
  }

  lemma HeadWords()
    ensures " " + "session-hook" + (" " + "--session" + " ") == " session-hook --session "
  {
  }

  /** The command string is the line of the intended arguments. */
  lemma HookCommandIsLine(p: Params, event: string)
    ensures HookCommand(p, event) == Line(HookArgs(p, event))
  {
    var a0 := [InQuotes(p.toolsPath), AsIs("session-hook")] + Flag("--session", AsIs(p.sessionId));
    HeadText(p);
    LineFlag(a0, "--daemon", AsIs(p.daemonUrl));
    var head := a0 + Flag("--daemon", AsIs(p.daemonUrl));
    FlagWords();
    var addressed := SocketText(p, head);
    var named := TailText(p, event, addressed);
    AwaitText(named, Decimal(p.answerWaitSecs + AWAIT_CLIENT_MARGIN_SECS));
  }

  lemma TailText(p: Params, event: string, addressed: seq<Arg>) returns (named: seq<Arg>)
    requires addressed != []
    ensures named == addressed + Flag("--os-user", AsIs(p.osUser)) + Flag("--hook-token", AsIs(p.hookToken))
                     + Flag("--event", AsIs(event))
    ensures named != [] && Line(named) ==
      Line(addressed) + " --os-user " + p.osUser + " --hook-token " + p.hookToken + " --event " + event
  {
    FlagWords();
    var user := addressed + Flag("--os-user", AsIs(p.osUser));
    var token := user + Flag("--hook-token", AsIs(p.hookToken));
    named := token + Flag("--event", AsIs(event));
    LineFlag(addressed, "--os-user", AsIs(p.osUser));
    LineFlag(user, "--hook-token", AsIs(p.hookToken));
    LineFlag(token, "--event", AsIs(event));
  }

  lemma FlagWords()
    ensures " " + "--daemon" + " " == " --daemon " && " " + "--os-user" + " " == " --os-user "
    ensures " " + "--hook-token" + " " == " --hook-token " && " " + "--event" + " " == " --event "
  {
  }

  lemma SocketText(p: Params, head: seq<Arg>) returns (addressed: seq<Arg>)
    requires head != []
    ensures addressed == if p.daemonSocket.Some? then head + Flag("--daemon-socket", InQuotes(p.daemonSocket.value)) else head
    ensures addressed != [] && Line(addressed) == Line(head) + DaemonSocketArg(p)
  {
    addressed := head;
    if p.daemonSocket.Some? {
      var socket := p.daemonSocket.value;
      LineFlag(head, "--daemon-socket", InQuotes(socket));
      addressed := head + Flag("--daemon-socket", InQuotes(socket));
      SocketWord();
      Associate(Line(head), " --daemon-socket ", ShellQuote(socket));
    } else {
      assert Line(head) + "" == Line(head);
    }
  }

  lemma SocketWord()
    ensures " " + "--daemon-socket" + " " == " --daemon-socket "
  {
  }

  lemma AwaitText(named: seq<Arg>, seconds: string)
    requires named != []
    ensures Line(named + [AsIs("--await-answer")] + Flag("--await-timeout-secs", AsIs(seconds)))
         == Line(named) + " --await-answer --await-timeout-secs " + seconds
  {
    var waiting := named + [AsIs("--await-answer")];
    LineAppend(named, [AsIs("--await-answer")]);
    LineFlag(waiting, "--await-timeout-secs", AsIs(seconds));
    AwaitWords();
    Associate(Line(named), " " + "--await-answer", " " + "--await-timeout-secs" + " ");
    Associate(Line(named), " ", "--await-answer");
  }

  lemma AwaitWords()
    ensures " " + "--await-answer" + (" " + "--await-timeout-secs" + " ") == " --await-answer --await-timeout-secs "
  {
  }

  lemma {:induction false} DecimalPlain(n: nat)
    ensures IsPlain(Decimal(n))
  {
    assert forall d: nat | d < 10 :: !IsSpecial(Digit(d));
    if n >= 10 {
      DecimalPlain(n / 10);
    }
  }

  predicate Writable(args: seq<Arg>)
  {
    forall a | a in args :: a.AsIs? ==> IsPlain(a.value)
  }

  lemma WritableFlag(args: seq<Arg>, name: string, value: Arg)
    requires Writable(args) && IsPlain(name) && (value.AsIs? ==> IsPlain(value.value))
    ensures Writable(args + Flag(name, value))
  {
  }

  lemma WordsPlain()
    ensures IsPlain("session-hook") && IsPlain("--session") && IsPlain("--daemon") && IsPlain("--os-user")
  {
  }

  lemma MoreWordsPlain()
    ensures IsPlain("--daemon-socket") && IsPlain("--hook-token") && IsPlain("--event")
  {
  }

  lemma AwaitWordsPlain()
    ensures IsPlain("--await-answer") && IsPlain("--await-timeout-secs")
  {
  }

  lemma EventPlain(event: string)
    requires IsEvent(event)
    ensures IsPlain(event)
  {
    FirstEventsPlain();
    MiddleEventsPlain();
    LastEventsPlain();
  }

  lemma FirstEventsPlain()
    ensures IsPlain("SessionStart") && IsPlain("UserPromptSubmit") && IsPlain("PostToolUse")
  {
  }

  lemma MiddleEventsPlain()
    ensures IsPlain("Notification") && IsPlain("PermissionRequest") && IsPlain("PreToolUse")
  {
  }

  lemma LastEventsPlain()
    ensures IsPlain("Stop") && IsPlain("SessionEnd")
  {
  }

  /** The fields the command carries unquoted hold nothing the shell would read otherwise. */
  predicate PlainFields(p: Params)
  {
    IsPlain(p.sessionId) && IsPlain(p.daemonUrl) && IsPlain(p.osUser) && IsPlain(p.hookToken)
  }

  /**
   For every tools path and socket whatsoever, and plain unquoted fields, the shell splits the hook command
   of every event into exactly the intended argument list.
   */
  lemma HookCommandReadsBack(p: Params, event: string)
    requires PlainFields(p) && IsEvent(event)
    ensures Words(HookCommand(p, event)) == Some(Values(HookArgs(p, event)))
  {
    HookCommandIsLine(p, event);
    HookArgsWritable(p, event);
    LineReadsBack(HookArgs(p, event));
  }

  lemma HookArgsWritable(p: Params, event: string)
    requires PlainFields(p) && IsEvent(event)
    ensures Writable(HookArgs(p, event))
  {
    WordsPlain();
    MoreWordsPlain();
    EventPlain(event);
    var a0 := [InQuotes(p.toolsPath), AsIs("session-hook")];
    WritableFlag(a0, "--session", AsIs(p.sessionId));
    var a1 := a0 + Flag("--session", AsIs(p.sessionId));
    WritableFlag(a1, "--daemon", AsIs(p.daemonUrl));
    var head := a1 + Flag("--daemon", AsIs(p.daemonUrl));
    var addressed := head;
    if p.daemonSocket.Some? {
      WritableFlag(head, "--daemon-socket", InQuotes(p.daemonSocket.value));
      addressed := head + Flag("--daemon-socket", InQuotes(p.daemonSocket.value));
    }
    WritableFlag(addressed, "--os-user", AsIs(p.osUser));
    var a2 := addressed + Flag("--os-user", AsIs(p.osUser));
    WritableFlag(a2, "--hook-token", AsIs(p.hookToken));
    var a3 := a2 + Flag("--hook-token", AsIs(p.hookToken));
    WritableFlag(a3, "--event", AsIs(event));
    var named := a3 + Flag("--event", AsIs(event));
    var seconds := Decimal(p.answerWaitSecs + AWAIT_CLIENT_MARGIN_SECS);
    AwaitWritable(named, seconds) by { DecimalPlain(p.answerWaitSecs + AWAIT_CLIENT_MARGIN_SECS); }
  }

  lemma AwaitWritable(named: seq<Arg>, seconds: string)
    requires Writable(named) && IsPlain(seconds)
    ensures Writable(named + [AsIs("--await-answer")] + Flag("--await-timeout-secs", AsIs(seconds)))
  {
    AwaitWordsPlain();
    WritableFlag(named + [AsIs("--await-answer")], "--await-timeout-secs", AsIs(seconds));
  }

  /** The hooks of a permission request and of the question tool wait, longer than the daemon does; no other waits. */
  lemma WhichHooksWait(p: Params, event: string)
    ensures var args, n := HookArgs(p, event), if p.daemonSocket.Some? then 14 else 12;
      if event == "PermissionRequest" || event == "PreToolUse"
      then |args| == n + 3 && args[n..] ==
             [AsIs("--await-answer"), AsIs("--await-timeout-secs"),
              AsIs(Decimal(p.answerWaitSecs + AWAIT_CLIENT_MARGIN_SECS))]
      else |args| == n
  {
  }
}
