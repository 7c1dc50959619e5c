/** What every turn, and every sequence of turns, of the provider agent keeps. */
module ProviderTurns {
  import opened Basics
  import opened ProviderAgent

  // ----- the round budget -----

  function Completions(started: seq<Suspension>): (n: nat)
  {
    if started == [] then 0 else (if started[0].AtProvider? then 1 else 0) + Completions(started[1..])
  }

  lemma {:induction false} CompletionsAppend(a: seq<Suspension>, b: seq<Suspension>)
    ensures Completions(a + b) == Completions(a) + Completions(b)
  {
    if a == [] {
      assert a + b == b;
    } else {
      assert (a + b)[1..] == a[1..] + b;
      CompletionsAppend(a[1..], b);
    }
  }

  lemma {:induction false} DispatchStarts(world: World, round: nat, calls: seq<ToolCall>, i: nat)
    requires i <= |calls|
    ensures Completions(Dispatch(world, round, calls, i).started) == 0
    decreases |calls| - i
  {
    if i < |calls| && world.tool(round, i).Came? {
      DispatchStarts(world, round, calls, i + 1);
      var rest := Dispatch(world, round, calls, i + 1).started;
      assert ([AtTool(round, i)] + rest)[1..] == rest;
    }
  }

  predicate AsksForTools(wake: Wake<Reply>)
  {
    wake.Came? && wake.event.Answer? && CallsOf(wake.event) != []
  }

  /** A round with tools, taken apart. */
  lemma ToolRound(world: World, round: nat, d: Turn, rest: Turn)
    requires round < MAX_TOOL_ROUNDS_PER_TURN && AsksForTools(world.provider(round))
    requires d == Dispatch(world, round, CallsOf(world.provider(round).event), 0) && rest == Rounds(world, round + 1)
    ensures var asked := [Assistant(world.provider(round).event.content, Some(CallsOf(world.provider(round).event)))];
      Rounds(world, round) ==
        if d.cut then Turn(asked + d.appended, [AtProvider(round)] + d.started, d.ending, true)
        else Turn(asked + d.appended + rest.appended, [AtProvider(round)] + d.started + rest.started,
                  rest.ending, rest.cut)
  {
  }

  lemma CompletionsOfRound(round: nat, d: seq<Suspension>, rest: seq<Suspension>)
    requires Completions(d) == 0
    ensures Completions([AtProvider(round)] + d) == 1
    ensures Completions([AtProvider(round)] + d + rest) == 1 + Completions(rest)
  {
    CompletionsAppend([AtProvider(round)], d);
    CompletionsAppend([AtProvider(round)] + d, rest);
  }

  lemma {:induction false} RoundsBudget(world: World, round: nat)
    requires round <= MAX_TOOL_ROUNDS_PER_TURN
    ensures var t := Rounds(world, round);
      && round + Completions(t.started) <= MAX_TOOL_ROUNDS_PER_TURN + 1
      && (t.ending == Ok(MaxTurnRequests) <==>
            round + Completions(t.started) == MAX_TOOL_ROUNDS_PER_TURN + 1
            && AsksForTools(world.provider(MAX_TOOL_ROUNDS_PER_TURN)))
    decreases MAX_TOOL_ROUNDS_PER_TURN - round
  {
    if round < MAX_TOOL_ROUNDS_PER_TURN && AsksForTools(world.provider(round)) {
      var d, rest := Dispatch(world, round, CallsOf(world.provider(round).event), 0), Rounds(world, round + 1);
      DispatchStarts(world, round, CallsOf(world.provider(round).event), 0);
      ToolRound(world, round, d, rest);
      CompletionsOfRound(round, d.started, rest.started);
      if !d.cut {
        RoundsBudget(world, round + 1);
      }
    } else {
      LastRoundBudget(world, round);
    }
  }

  lemma LastRoundBudget(world: World, round: nat)
    requires round <= MAX_TOOL_ROUNDS_PER_TURN
    requires round == MAX_TOOL_ROUNDS_PER_TURN || !AsksForTools(world.provider(round))
    ensures var t := Rounds(world, round);
      && Completions(t.started) == 1
      && (t.ending == Ok(MaxTurnRequests) <==> round == MAX_TOOL_ROUNDS_PER_TURN && AsksForTools(world.provider(round)))
  {
  }

  lemma {:induction false} DispatchRound(world: World, round: nat, calls: seq<ToolCall>, i: nat)
    requires i <= |calls|
    ensures forall s | s in Dispatch(world, round, calls, i).started :: s.AtTool? && s.round == round
    decreases |calls| - i
  {
    if i < |calls| && world.tool(round, i).Came? {
      DispatchRound(world, round, calls, i + 1);
    }
  }

  lemma {:induction false} ToolRounds(world: World, round: nat)
    requires round <= MAX_TOOL_ROUNDS_PER_TURN
    ensures forall s | s in Rounds(world, round).started :: s.AtTool? ==> s.round < MAX_TOOL_ROUNDS_PER_TURN
    decreases MAX_TOOL_ROUNDS_PER_TURN - round
  {
    if round < MAX_TOOL_ROUNDS_PER_TURN && AsksForTools(world.provider(round)) {
      DispatchRound(world, round, CallsOf(world.provider(round).event), 0);
      ToolRounds(world, round + 1);
    }
  }

  /**
   Every turn makes at most eleven completions and runs tools in at most ten rounds, and ends for its
   budget exactly when it made eleven and the last answer still asked for tools.
   */
  lemma TurnBudget(prompt: seq<Block>, toolsParse: bool, world: World)
    ensures var t := TurnOf(prompt, toolsParse, world);
      && Completions(t.started) <= 11
      && (forall s | s in t.started :: s.AtTool? ==> s.round < 10)
      && (t.ending == Ok(MaxTurnRequests) <==> Completions(t.started) == 11 && AsksForTools(world.provider(10)))
  {
    RoundsBudget(world, 0);
    ToolRounds(world, 0);
  }

  // ----- the conversation's discipline -----

  predicate Answered(calls: seq<ToolCall>, results: seq<Message>)
  {
    && |results| == |calls|
    && forall i | 0 <= i < |calls| ::
         results[i].ToolResult? && results[i].id == calls[i].id && results[i].name == calls[i].name
  }

  /**
   Every assistant message with tool calls is followed at once by one result per call, in order and with
   matching ids, and results occur nowhere else.
   */
  predicate Disciplined(h: seq<Message>)
  {
    if h == [] then true
    else
      match h[0]
      case System(_) => Disciplined(h[1..])
      case User(_) => Disciplined(h[1..])
      case ToolResult(_, _, _) => false
      case Assistant(_, calls) =>
        if calls.None? then Disciplined(h[1..])
        else
          var n := |calls.value|;
          n > 0 && n < |h| && Answered(calls.value, h[1..n + 1]) && Disciplined(h[n + 1..])
  }

  lemma {:induction false} DisciplinedAppend(a: seq<Message>, b: seq<Message>)
    requires Disciplined(a)
    ensures Disciplined(a + b) <==> Disciplined(b)
    decreases |a|
  {
    if a == [] {
      assert a + b == b;
    } else {
      var n := if a[0].Assistant? && a[0].calls.Some? then |a[0].calls.value| else 0;
      assert (a + b)[1..n + 1] == a[1..n + 1] && (a + b)[n + 1..] == a[n + 1..] + b;
      assert (a + b)[0] == a[0];
      DisciplinedAppend(a[n + 1..], b);
    }
  }

  /** What the discipline means at each place. */
  lemma {:induction false} DisciplinedMeans(h: seq<Message>, i: nat)
    requires Disciplined(h) && i < |h| && h[i].Assistant? && h[i].calls.Some?
    ensures var n := |h[i].calls.value|; i + n < |h| && Answered(h[i].calls.value, h[i + 1..i + 1 + n])
    decreases |h|
  {
    if i > 0 {
      var n := FirstTaken(h, i);
      DisciplinedMeans(h[n..], i - n);
      var m := |h[i].calls.value|;
      assert h[n..][i - n + 1..i - n + 1 + m] == h[i + 1..i + 1 + m];
    }
  }

  /** The first message and its results, if it has any, end before any later message with calls. */
  lemma FirstTaken(h: seq<Message>, i: nat) returns (n: nat)
    requires Disciplined(h) && 0 < i < |h| && h[i].Assistant?
    ensures 0 < n <= i && Disciplined(h[n..]) && h[n..][i - n] == h[i]
  {
    n := 1 + if h[0].Assistant? && h[0].calls.Some? then |h[0].calls.value| else 0;
    assert forall m | 1 <= m < n :: h[m] == h[1..n][m - 1];
  }

  /**
   The assistant's message at `k` is missing its result `j`: the history ends there, or goes on with
   something else.
   */
  predicate BrokenAt(h: seq<Message>, k: nat, j: nat)
  {
    MissesResult(h, k, j) && Disciplined(h[..k])
  }

  predicate MissesResult(h: seq<Message>, k: nat, j: nat)
  {
    && k < |h| && h[k].Assistant? && h[k].calls.Some? && j < |h[k].calls.value|
    && k + 1 + j <= |h| && (k + 1 + j < |h| ==> !h[k + 1 + j].ToolResult?)
  }

  lemma BrokenIsUndisciplined(h: seq<Message>, k: nat, j: nat)
    requires BrokenAt(h, k, j)
    ensures !Disciplined(h)
  {
    assert h == h[..k] + h[k..];
    DisciplinedAppend(h[..k], h[k..]);
    var g, calls := h[k..], h[k].calls.value;
    assert g[0] == h[k];
    if |calls| < |g| {
      assert g[1..|calls| + 1][j] == h[k + 1 + j];
      assert !Answered(calls, g[1..|calls| + 1]);
    }
    assert !Disciplined(g);
  }

  lemma BrokenStays(h: seq<Message>, k: nat, j: nat, more: seq<Message>)
    requires BrokenAt(h, k, j) && (more != [] ==> !more[0].ToolResult?)
    ensures BrokenAt(h + more, k, j)
  {
    assert (h + more)[..k] == h[..k];
  }

  lemma BrokenBehind(h: seq<Message>, more: seq<Message>, k: nat, j: nat, g: seq<Message>)
    requires Disciplined(h) && BrokenAt(more, k, j) && g == h + more
    ensures BrokenAt(g, |h| + k, j)
  {
    MissesBehind(h, more, k, j, g);
    DisciplinedBehind(h, more, k, g);
  }

  lemma MissesBehind(h: seq<Message>, more: seq<Message>, k: nat, j: nat, g: seq<Message>)
    requires MissesResult(more, k, j) && g == h + more
    ensures MissesResult(g, |h| + k, j)
  {
    assert g[|h| + k] == more[k] && (k + 1 + j < |more| ==> g[|h| + k + 1 + j] == more[k + 1 + j]);
  }

  lemma DisciplinedBehind(h: seq<Message>, more: seq<Message>, k: nat, g: seq<Message>)
    requires Disciplined(h) && k <= |more| && Disciplined(more[..k]) && g == h + more
    ensures Disciplined(g[..|h| + k])
  {
    assert g[..|h| + k] == h + more[..k];
    DisciplinedAppend(h, more[..k]);
  }

  lemma {:induction false} DispatchResults(world: World, round: nat, calls: seq<ToolCall>, i: nat)
    requires i <= |calls|
    ensures var d := Dispatch(world, round, calls, i);
      if d.cut then |d.appended| < |calls| - i else Answered(calls[i..], d.appended)
    decreases |calls| - i
  {
    if i < |calls| && world.tool(round, i).Came? {
      DispatchResults(world, round, calls, i + 1);
      assert calls[i..] == [calls[i]] + calls[i + 1..];
    }
  }

  /** A round with all its results is disciplined, and with fewer is broken. */
  lemma RoundDiscipline(content: Option<string>, calls: seq<ToolCall>, results: seq<Message>)
    requires calls != []
    ensures var first := [Assistant(content, Some(calls))] + results;
      && (Answered(calls, results) ==> Disciplined(first))
      && (|results| < |calls| ==> BrokenAt(first, 0, |results|))
  {
    var first := [Assistant(content, Some(calls))] + results;
    if Answered(calls, results) {
      assert first[1..|calls| + 1] == results && first[|calls| + 1..] == [];
    }
    assert first[..0] == [];
  }

  /** Disciplined, or broken at `k` and `j` when cut in a tool round. */
  predicate Told(t: Turn, k: nat, j: nat)
  {
    if t.cut then BrokenAt(t.appended, k, j) else Disciplined(t.appended)
  }

  lemma ToldBehind(first: seq<Message>, rest: Turn, whole: Turn, k: nat, j: nat)
    requires Disciplined(first) && Told(rest, k, j)
    requires whole.appended == first + rest.appended && whole.cut == rest.cut
    ensures Told(whole, |first| + k, j)
  {
    if rest.cut {
      BrokenBehind(first, rest.appended, k, j, whole.appended);
    } else {
      DisciplinedAppend(first, rest.appended);
    }
  }

  lemma PlainAnswer(m: Message)
    requires m.User? || (m.Assistant? && m.calls.None?)
    ensures Disciplined([m])
  {
    assert [m][1..] == [];
  }

  /** What one tool round appends. */
  lemma ToldRound(world: World, round: nat, calls: seq<ToolCall>, content: Option<string>)
    requires calls != []
    ensures var d := Dispatch(world, round, calls, 0);
      var first := [Assistant(content, Some(calls))] + d.appended;
      if d.cut then BrokenAt(first, 0, |d.appended|) else Disciplined(first)
  {
    DispatchResults(world, round, calls, 0);
    assert calls[0..] == calls;
    RoundDiscipline(content, calls, Dispatch(world, round, calls, 0).appended);
  }

  /** The rounds, cut in the first or going on after it. */
  lemma ToldRounds(world: World, round: nat, d: Turn, rest: Turn, t: Turn, k: nat, j: nat)
    requires round < MAX_TOOL_ROUNDS_PER_TURN && AsksForTools(world.provider(round))
    requires d == Dispatch(world, round, CallsOf(world.provider(round).event), 0)
    requires rest == Rounds(world, round + 1) && t == Rounds(world, round) && (!d.cut ==> Told(rest, k, j))
    ensures if d.cut then Told(t, 0, |d.appended|) else Told(t, 1 + |d.appended| + k, j)
  {
    var calls, content := CallsOf(world.provider(round).event), world.provider(round).event.content;
    ToolRound(world, round, d, rest);
    ToldRound(world, round, calls, content);
    ToldAfter([Assistant(content, Some(calls))] + d.appended, d, rest, t, k, j);
  }

  lemma ToldAfter(first: seq<Message>, d: Turn, rest: Turn, t: Turn, k: nat, j: nat)
    requires |first| == 1 + |d.appended| && (if d.cut then BrokenAt(first, 0, |d.appended|) else Disciplined(first))
    requires if d.cut then t.appended == first && t.cut
             else t.appended == first + rest.appended && t.cut == rest.cut && Told(rest, k, j)
    ensures if d.cut then Told(t, 0, |d.appended|) else Told(t, 1 + |d.appended| + k, j)
  {
    if !d.cut {
      ToldBehind(first, rest, t, k, j);
    }
  }

  lemma ToldLast(world: World, round: nat)
    requires round <= MAX_TOOL_ROUNDS_PER_TURN
    requires round == MAX_TOOL_ROUNDS_PER_TURN || !AsksForTools(world.provider(round))
    ensures !Rounds(world, round).cut && Disciplined(Rounds(world, round).appended)
  {
    var t := Rounds(world, round);
    if t.appended != [] {
      PlainAnswer(t.appended[0]);
      assert t.appended == [t.appended[0]];
    }
  }

  /** What a turn's rounds append is disciplined, or is cut in a tool round. */
  lemma {:induction false} RoundsDiscipline(world: World, round: nat, t: Turn) returns (k: nat, j: nat)
    requires round <= MAX_TOOL_ROUNDS_PER_TURN && t == Rounds(world, round)
    ensures Told(t, k, j)
    decreases MAX_TOOL_ROUNDS_PER_TURN - round
  {
    k, j := 0, 0;
    if round < MAX_TOOL_ROUNDS_PER_TURN && AsksForTools(world.provider(round)) {
      var d, rest := Dispatch(world, round, CallsOf(world.provider(round).event), 0), Rounds(world, round + 1);
      if !d.cut {
        k, j := RoundsDiscipline(world, round + 1, rest);
      }
      ToldRounds(world, round, d, rest, t, k, j);
      k, j := if d.cut then 0 else 1 + |d.appended| + k, if d.cut then |d.appended| else j;
    } else {
      ToldLast(world, round);
    }
  }

  lemma TurnDiscipline(prompt: seq<Block>, toolsParse: bool, world: World) returns (k: nat, j: nat)
    ensures var t := TurnOf(prompt, toolsParse, world);
      Told(t, k, j) && (t.appended != [] ==> t.appended[0].User?)
  {
    k, j := 0, 0;
    var t := TurnOf(prompt, toolsParse, world);
    if t.appended != [] {
      var user := t.appended[0];
      PlainAnswer(user);
      if toolsParse {
        k, j := RoundsDiscipline(world, 0, Rounds(world, 0));
        ToldBehind([user], Rounds(world, 0), t, k, j);
        k := 1 + k;
      } else {
        assert t.appended == [user];
      }
    }
  }

  // ----- where a turn is cut -----

  /** Round `k` asks for tools and none of them is cancelled. */
  predicate RoundDone(world: World, k: nat)
  {
    && AsksForTools(world.provider(k))
    && forall m: nat | m < |CallsOf(world.provider(k).event)| :: world.tool(k, m).Came?
  }

  /** From round `from` on, the world lets a turn get as far as starting tool `i` of round `k`. */
  predicate Reaches(world: World, from: nat, k: nat, i: nat)
  {
    && from <= k < MAX_TOOL_ROUNDS_PER_TURN && (forall j: nat | from <= j < k :: RoundDone(world, j))
    && AsksForTools(world.provider(k)) && i < |CallsOf(world.provider(k).event)|
    && forall m: nat | m < i :: world.tool(k, m).Came?
  }

  /** A cancel arrives during a tool that is reached. */
  ghost predicate CancelledInTools(world: World, from: nat)
  {
    exists k: nat, i: nat :: Reaches(world, from, k, i) && world.tool(k, i).CancelArrived?
  }

  lemma {:induction false} DispatchCut(world: World, round: nat, calls: seq<ToolCall>, i: nat) returns (m: nat)
    requires i <= |calls|
    ensures i <= m <= |calls| && forall n: nat | i <= n < m :: world.tool(round, n).Came?
    ensures if Dispatch(world, round, calls, i).cut then m < |calls| && world.tool(round, m).CancelArrived? else m == |calls|
    decreases |calls| - i
  {
    m := i;
    if i < |calls| && world.tool(round, i).Came? {
      m := DispatchCut(world, round, calls, i + 1);
    }
  }

  lemma {:induction false} RoundsCutIff(world: World, round: nat)
    requires round <= MAX_TOOL_ROUNDS_PER_TURN
    ensures Rounds(world, round).cut <==> CancelledInTools(world, round)
    decreases MAX_TOOL_ROUNDS_PER_TURN - round
  {
    if round < MAX_TOOL_ROUNDS_PER_TURN && AsksForTools(world.provider(round)) {
      var calls := CallsOf(world.provider(round).event);
      var m := DispatchCut(world, round, calls, 0);
      if Dispatch(world, round, calls, 0).cut {
        assert Reaches(world, round, round, m);
      } else {
        RoundsCutIff(world, round + 1);
        LaterRound(world, round);
      }
    } else {
      forall k: nat, i: nat ensures !Reaches(world, round, k, i) {
        assert round < k ==> (RoundDone(world, round) ==> AsksForTools(world.provider(round)));
      }
    }
  }

  lemma LaterRound(world: World, round: nat)
    requires RoundDone(world, round) && round < MAX_TOOL_ROUNDS_PER_TURN
    ensures CancelledInTools(world, round) <==> CancelledInTools(world, round + 1)
  {
    forall k: nat, i: nat | world.tool(k, i).CancelArrived?
      ensures Reaches(world, round, k, i) <==> Reaches(world, round + 1, k, i)
    {
    }
  }

  /** A turn is cut in a tool round exactly when it gets to run and a cancel arrives during a tool it reaches. */
  lemma TurnCutIff(prompt: seq<Block>, toolsParse: bool, world: World)
    ensures TurnOf(prompt, toolsParse, world).cut <==>
      PromptText(prompt).Ok? && toolsParse && CancelledInTools(world, 0)
  {
    RoundsCutIff(world, 0);
  }

  // ----- every sequence of turns -----

  datatype Input = Input(prompt: seq<Block>, toolsParse: bool, world: World)

  function Played(input: Input): (t: Turn)
  {
    TurnOf(input.prompt, input.toolsParse, input.world)
  }

  ghost predicate CutInTools(input: Input)
  {
    PromptText(input.prompt).Ok? && input.toolsParse && CancelledInTools(input.world, 0)
  }

  function Conversation(h: seq<Message>, turns: seq<Input>): (h': seq<Message>)
    ensures h <= h'
    decreases |turns|
  {
    if turns == [] then h else Conversation(h + Played(turns[0]).appended, turns[1..])
  }

  lemma {:induction false} BrokenForGood(h: seq<Message>, k: nat, j: nat, turns: seq<Input>)
    requires BrokenAt(h, k, j)
    ensures BrokenAt(Conversation(h, turns), k, j)
    decreases |turns|
  {
    if turns != [] {
      var _, _ := TurnDiscipline(turns[0].prompt, turns[0].toolsParse, turns[0].world);
      BrokenStays(h, k, j, Played(turns[0]).appended);
      BrokenForGood(h + Played(turns[0]).appended, k, j, turns[1..]);
    }
  }

  lemma StaysUndisciplined(h: seq<Message>, k: nat, j: nat, turns: seq<Input>)
    requires BrokenAt(h, k, j)
    ensures !Disciplined(Conversation(h, turns))
  {
    BrokenForGood(h, k, j, turns);
    BrokenIsUndisciplined(Conversation(h, turns), k, j);
  }

  lemma FirstTurn(h: seq<Message>, input: Input) returns (k: nat, j: nat)
    requires Disciplined(h)
    ensures var h' := h + Played(input).appended; if Played(input).cut then BrokenAt(h', k, j) else Disciplined(h')
  {
    var t := Played(input);
    k, j := TurnDiscipline(input.prompt, input.toolsParse, input.world);
    ToldBehind(h, t, t.(appended := h + t.appended), k, j);
    k := |h| + k;
  }

  lemma {:induction false} ConversationCut(h: seq<Message>, turns: seq<Input>)
    requires Disciplined(h)
    ensures Disciplined(Conversation(h, turns)) <==> forall t | t in turns :: !Played(t).cut
    decreases |turns|
  {
    if turns != [] {
      var h' := h + Played(turns[0]).appended;
      var k, j := FirstTurn(h, turns[0]);
      if Played(turns[0]).cut {
        StaysUndisciplined(h', k, j, turns[1..]);
        assert turns[0] in turns;
      } else {
        ConversationCut(h', turns[1..]);
        assert forall t :: t in turns <==> t == turns[0] || t in turns[1..];
      }
    }
  }

  /**
   Over every sequence of turns, whatever the provider and the tools answer, the history only grows; and
   it is disciplined afterwards exactly when no turn that got to run was cancelled during a tool it reached.
   */
  lemma ConversationDiscipline(h: seq<Message>, turns: seq<Input>)
    requires Disciplined(h)
    ensures h <= Conversation(h, turns)
    ensures Disciplined(Conversation(h, turns)) <==> forall t | t in turns :: !CutInTools(t)
  {
    ConversationCut(h, turns);
    forall t ensures Played(t).cut <==> CutInTools(t) { TurnCutIff(t.prompt, t.toolsParse, t.world); }
  }

  // ----- the history is what was said -----

  /** What one suspension adds to the history, once what it waited for has come. */
  function Said(world: World, s: Suspension): (messages: seq<Message>)
  {
    match s
    case AtProvider(k) =>
      var wake := world.provider(k);
      if wake.CancelArrived? || wake.event.Failure? then []
      else
        var asks := AsksForTools(wake) && k < MAX_TOOL_ROUNDS_PER_TURN;
        [Assistant(wake.event.content, if asks then Some(CallsOf(wake.event)) else None)]
    case AtTool(k, i) =>
      var wake := world.provider(k);
      if world.tool(k, i).CancelArrived? || !AsksForTools(wake) || i >= |CallsOf(wake.event)| then []
      else
        var call := CallsOf(wake.event)[i];
        [ToolResult(world.tool(k, i).event, call.id, call.name)]
  }

  function Transcript(world: World, started: seq<Suspension>): (messages: seq<Message>)
  {
    if started == [] then [] else Said(world, started[0]) + Transcript(world, started[1..])
  }

  lemma {:induction false} TranscriptAppend(world: World, a: seq<Suspension>, b: seq<Suspension>)
    ensures Transcript(world, a + b) == Transcript(world, a) + Transcript(world, b)
    decreases |a|
  {
    if a == [] {
      assert a + b == b;
    } else {
      assert (a + b)[0] == a[0] && (a + b)[1..] == a[1..] + b;
      TranscriptAppend(world, a[1..], b);
    }
  }

  lemma TranscriptOne(world: World, s: Suspension, rest: seq<Suspension>)
    ensures Transcript(world, [s] + rest) == Said(world, s) + Transcript(world, rest)
  {
    assert ([s] + rest)[1..] == rest;
  }

  lemma {:induction false} DispatchSaid(world: World, round: nat, calls: seq<ToolCall>, i: nat)
    requires AsksForTools(world.provider(round)) && calls == CallsOf(world.provider(round).event) && i <= |calls|
    ensures var d := Dispatch(world, round, calls, i); d.appended == Transcript(world, d.started)
    decreases |calls| - i
  {
    if i < |calls| {
      if world.tool(round, i).CancelArrived? {
        TranscriptOne(world, AtTool(round, i), []);
      } else {
        DispatchSaid(world, round, calls, i + 1);
        TranscriptOne(world, AtTool(round, i), Dispatch(world, round, calls, i + 1).started);
      }
    }
  }

  lemma SaidRound(world: World, here: Suspension, d: Turn, rest: Turn)
    requires d.appended == Transcript(world, d.started) && rest.appended == Transcript(world, rest.started)
    ensures Said(world, here) + d.appended == Transcript(world, [here] + d.started)
    ensures Said(world, here) + d.appended + rest.appended == Transcript(world, [here] + d.started + rest.started)
  {
    TranscriptOne(world, here, d.started);
    TranscriptAppend(world, [here] + d.started, rest.started);
  }

  lemma LastSaid(world: World, round: nat, t: Turn)
    requires round <= MAX_TOOL_ROUNDS_PER_TURN && t == Rounds(world, round)
    requires round == MAX_TOOL_ROUNDS_PER_TURN || !AsksForTools(world.provider(round))
    ensures t.appended == Transcript(world, t.started)
  {
    TranscriptOne(world, AtProvider(round), []);
  }

  lemma {:induction false} RoundsSaid(world: World, round: nat, t: Turn)
    requires round <= MAX_TOOL_ROUNDS_PER_TURN && t == Rounds(world, round)
    ensures t.appended == Transcript(world, t.started)
    decreases MAX_TOOL_ROUNDS_PER_TURN - round
  {
    if round < MAX_TOOL_ROUNDS_PER_TURN && AsksForTools(world.provider(round)) {
      var calls, rest := CallsOf(world.provider(round).event), Rounds(world, round + 1);
      var d := Dispatch(world, round, calls, 0);
      ToolRound(world, round, d, rest);
      DispatchSaid(world, round, calls, 0);
      RoundsSaid(world, round + 1, rest);
      SaidRound(world, AtProvider(round), d, rest);
    } else {
      LastSaid(world, round, t);
    }
  }

  /**
   Behind the user's message, a turn appends exactly what the provider and the tools said, in the order
   they were asked: no answer and no result is lost, doubled or out of place, and none follows a failure.
   */
  lemma HistoryIsWhatWasSaid(prompt: seq<Block>, toolsParse: bool, world: World)
    ensures var t := TurnOf(prompt, toolsParse, world);
      t.appended ==
        (if PromptText(prompt).Ok? then [User(PromptText(prompt).value)] else []) + Transcript(world, t.started)
  {
    RoundsSaid(world, 0, Rounds(world, 0));
  }
}
