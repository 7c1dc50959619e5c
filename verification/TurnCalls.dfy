/** What becomes of every answer a turn hears: all of its calls run, in order, and none that it did not make. */
module TurnCalls {
  import opened Basics
  import opened ProviderAgent
  import opened ProviderTurns
  import opened TurnRuns
  import opened TurnCancels
  import opened TurnHistories

  /** Every tool of round `k` before `i` came back. */
  predicate CameBefore(world: World, k: nat, i: nat)
  {
    forall m: nat | m < i :: world.tool(k, m).Came?
  }

  /**
   Call `i` of round `k`, if it is reached, was started in its place behind the completion at `q`, and its
   result, if it came, stands in its place behind the answer at `p`.
   */
  predicate RanAt(said: seq<Message>, started: seq<Suspension>, world: World, k: nat, cs: seq<ToolCall>, i: nat,
                  p: nat, q: nat)
    requires i < |cs|
  {
    CameBefore(world, k, i) ==>
      && q + 1 + i < |started| && started[q + 1 + i] == AtTool(k, i)
      && (world.tool(k, i).Came? ==>
            && p + 1 + i < |said|
            && said[p + 1 + i] == ToolResult(world.tool(k, i).event, cs[i].id, cs[i].name))
  }

  /** The answer `content` with calls `cs` to completion `k` stands at `p`, and its calls and results behind it. */
  predicate RoundAt(said: seq<Message>, started: seq<Suspension>, world: World, k: nat,
                    content: Option<string>, cs: seq<ToolCall>, p: nat, q: nat)
  {
    && p < |said| && said[p] == Assistant(content, Some(cs))
    && q < |started| && started[q] == AtProvider(k)
    && forall i: nat | i < |cs| :: RanAt(said, started, world, k, cs, i, p, q)
  }

  // ----- one round -----

  lemma {:induction false} DispatchRuns(world: World, k: nat, calls: seq<ToolCall>, i: nat, j: nat)
    requires i <= j < |calls| && forall m: nat | i <= m < j :: world.tool(k, m).Came?
    ensures var d := Dispatch(world, k, calls, i);
      && j - i < |d.started| && d.started[j - i] == AtTool(k, j)
      && (world.tool(k, j).Came? ==>
            && j - i < |d.appended|
            && d.appended[j - i] == ToolResult(world.tool(k, j).event, calls[j].id, calls[j].name))
    decreases |calls| - i
  {
    if i < j {
      DispatchRuns(world, k, calls, i + 1, j);
    }
  }

  lemma DispatchRan(world: World, k: nat, content: Option<string>, cs: seq<ToolCall>, d: Turn)
    requires d == Dispatch(world, k, cs, 0)
    ensures RoundAt([Assistant(content, Some(cs))] + d.appended, [AtProvider(k)] + d.started, world, k, content, cs, 0, 0)
  {
    var said, started := [Assistant(content, Some(cs))] + d.appended, [AtProvider(k)] + d.started;
    forall i: nat | i < |cs| && CameBefore(world, k, i) ensures RanAt(said, started, world, k, cs, i, 0, 0) {
      DispatchRuns(world, k, cs, 0, i);
    }
  }

  lemma RanWithin(said: seq<Message>, started: seq<Suspension>, world: World, k: nat, cs: seq<ToolCall>, i: nat,
                  p: nat, q: nat, a: seq<Message>, b: seq<Suspension>, a': seq<Message>, b': seq<Suspension>)
    requires i < |cs| && RanAt(said, started, world, k, cs, i, p, q)
    ensures RanAt(a + said + a', b + started + b', world, k, cs, i, |a| + p, |b| + q)
  {
    if CameBefore(world, k, i) {
      assert (b + started + b')[|b| + (q + 1 + i)] == started[q + 1 + i];
      assert world.tool(k, i).Came? ==> (a + said + a')[|a| + (p + 1 + i)] == said[p + 1 + i];
    }
  }

  /** A round stays where it is in anything longer. */
  lemma RoundWithin(said: seq<Message>, started: seq<Suspension>, world: World, k: nat, content: Option<string>,
                    cs: seq<ToolCall>, p: nat, q: nat, a: seq<Message>, b: seq<Suspension>,
                    a': seq<Message>, b': seq<Suspension>) returns (p': nat, q': nat)
    requires RoundAt(said, started, world, k, content, cs, p, q)
    ensures RoundAt(a + said + a', b + started + b', world, k, content, cs, p', q')
  {
    p', q' := |a| + p, |b| + q;
    forall i: nat | i < |cs| ensures RanAt(a + said + a', b + started + b', world, k, cs, i, p', q') {
      RanWithin(said, started, world, k, cs, i, p, q, a, b, a', b');
    }
  }

  // ----- every round of a turn -----

  /** A turn's first round, and what comes after it. */
  lemma FirstRound(world: World, k: nat, content: Option<string>, cs: seq<ToolCall>, t: Turn) returns (p: nat, q: nat)
    requires k < 10 && world.provider(k) == Came(Answer(content, Some(cs))) && cs != [] && t == Rounds(world, k)
    ensures RoundAt(t.appended, t.started, world, k, content, cs, p, q)
  {
    var d, rest := Dispatch(world, k, cs, 0), Rounds(world, k + 1);
    var said, started := [Assistant(content, Some(cs))] + d.appended, [AtProvider(k)] + d.started;
    ToolRound(world, k, d, rest);
    DispatchRan(world, k, content, cs, d);
    if d.cut {
      p, q := 0, 0;
    } else {
      p, q := RoundWithin(said, started, world, k, content, cs, 0, 0, [], [], rest.appended, rest.started);
      assert [] + said == said && [] + started == started;
    }
  }

  /** A later completion belongs to a later round, and the rounds before it were done. */
  lemma LaterCompletion(world: World, round: nat, k: nat, t: Turn, rest: Turn)
    returns (a: seq<Message>, b: seq<Suspension>)
    requires round < k && round < 10 && t == Rounds(world, round) && rest == Rounds(world, round + 1)
    requires AtProvider(k) in t.started
    ensures t.appended == a + rest.appended && t.started == b + rest.started && t.ending == rest.ending
    ensures AtProvider(k) in rest.started
  {
    if AsksForTools(world.provider(round)) {
      var calls, content := CallsOf(world.provider(round).event), world.provider(round).event.content;
      var d := Dispatch(world, round, calls, 0);
      DispatchRound(world, round, calls, 0);
      ToolRound(world, round, d, rest);
      a, b := [Assistant(content, Some(calls))] + d.appended, [AtProvider(round)] + d.started;
    } else {
      assert false;
    }
  }

  lemma RoundBehind(t: Turn, rest: Turn, a: seq<Message>, b: seq<Suspension>, world: World, k: nat,
                    content: Option<string>, cs: seq<ToolCall>, p: nat, q: nat) returns (p': nat, q': nat)
    requires t.appended == a + rest.appended && t.started == b + rest.started
    requires RoundAt(rest.appended, rest.started, world, k, content, cs, p, q)
    ensures RoundAt(t.appended, t.started, world, k, content, cs, p', q')
  {
    p', q' := RoundWithin(rest.appended, rest.started, world, k, content, cs, p, q, a, b, [], []);
    assert t.appended + [] == t.appended && t.started + [] == t.started;
  }

  lemma {:induction false} RoundsRun(world: World, round: nat, k: nat, content: Option<string>,
                                     cs: seq<ToolCall>, t: Turn)
    returns (p: nat, q: nat)
    requires round <= k < 10 && t == Rounds(world, round) && AtProvider(k) in t.started
    requires world.provider(k) == Came(Answer(content, Some(cs))) && cs != []
    ensures RoundAt(t.appended, t.started, world, k, content, cs, p, q)
    decreases k - round
  {
    if round == k {
      p, q := FirstRound(world, k, content, cs, t);
    } else {
      var rest := Rounds(world, round + 1);
      var a, b := LaterCompletion(world, round, k, t, rest);
      p, q := RoundsRun(world, round + 1, k, content, cs, rest);
      p, q := RoundBehind(t, rest, a, b, world, k, content, cs, p, q);
    }
  }

  /** A turn that started anything is the user's message and then its rounds. */
  lemma TurnRounds(prompt: seq<Block>, toolsParse: bool, world: World, t: Turn, rest: Turn) returns (a: seq<Message>)
    requires t == TurnOf(prompt, toolsParse, world) && rest == Rounds(world, 0) && t.started != []
    ensures t.appended == a + rest.appended && t.started == [] + rest.started && t.ending == rest.ending
  {
    a := [t.appended[0]];
  }

  /**
   Whenever a turn asks for a completion, rounds being left, and is answered with calls, the answer is appended
   with every one of them; and each call whose predecessors came back is started, in order, and its result,
   with its own id and name, appended in order right behind the answer.
   */
  lemma EveryCallRuns(prompt: seq<Block>, toolsParse: bool, world: World, k: nat, content: Option<string>,
                      cs: seq<ToolCall>) returns (p: nat, q: nat)
    requires k < 10 && AtProvider(k) in TurnOf(prompt, toolsParse, world).started
    requires world.provider(k) == Came(Answer(content, Some(cs))) && cs != []
    ensures var t := TurnOf(prompt, toolsParse, world); RoundAt(t.appended, t.started, world, k, content, cs, p, q)
  {
    var t, rest := TurnOf(prompt, toolsParse, world), Rounds(world, 0);
    var a := TurnRounds(prompt, toolsParse, world, t, rest);
    p, q := RoundsRun(world, 0, k, content, cs, rest);
    p, q := RoundBehind(t, rest, a, [], world, k, content, cs, p, q);
  }

  // ----- no other call runs -----

  /** Completion `k` was asked for and answered with a call `i`, rounds being left, and every call before it came back. */
  ghost predicate Calls(started: seq<Suspension>, world: World, k: nat, i: nat)
  {
    && k < 10 && AtProvider(k) in started && CameBefore(world, k, i)
    && exists content, cs :: world.provider(k) == Came(Answer(content, Some(cs))) && i < |cs|
  }

  lemma {:induction false} DispatchStarted(world: World, k: nat, calls: seq<ToolCall>, i: nat, j: nat)
    requires i <= |calls| && AtTool(k, j) in Dispatch(world, k, calls, i).started
    ensures i <= j < |calls| && forall m: nat | i <= m < j :: world.tool(k, m).Came?
    decreases |calls| - i
  {
    if AtTool(k, j) != AtTool(k, i) {
      DispatchStarted(world, k, calls, i + 1, j);
    }
  }

  lemma StartedHere(world: World, k: nat, i: nat, t: Turn, d: Turn)
    requires k < 10 && AsksForTools(world.provider(k)) && t == Rounds(world, k)
    requires d == Dispatch(world, k, CallsOf(world.provider(k).event), 0) && AtTool(k, i) in d.started
    ensures Calls(t.started, world, k, i)
  {
    DispatchStarted(world, k, CallsOf(world.provider(k).event), 0, i);
    assert t.started[0] == AtProvider(k);
    var reply := world.provider(k).event;
    assert world.provider(k) == Came(Answer(reply.content, Some(reply.calls.value)));
  }

  lemma {:induction false} StartedInRounds(world: World, round: nat, k: nat, i: nat, t: Turn)
    requires round <= 10 && t == Rounds(world, round) && AtTool(k, i) in t.started
    ensures Calls(t.started, world, k, i)
    decreases 10 - round
  {
    var calls := CallsOf(world.provider(round).event);
    var d, rest := Dispatch(world, round, calls, 0), Rounds(world, round + 1);
    ToolRound(world, round, d, rest);
    DispatchRound(world, round, calls, 0);
    if AtTool(k, i) in d.started {
      StartedHere(world, k, i, t, d);
    } else {
      StartedInRounds(world, round + 1, k, i, rest);
    }
  }

  /**
   A tool is started if and only if the completion of its round was asked for, with rounds left, and answered
   with that call, and every call before it came back: none without a call, and none of an empty list.
   */
  lemma ToolStartedIff(prompt: seq<Block>, toolsParse: bool, world: World, k: nat, i: nat)
    ensures var t := TurnOf(prompt, toolsParse, world); AtTool(k, i) in t.started <==> Calls(t.started, world, k, i)
  {
    var t := TurnOf(prompt, toolsParse, world);
    if AtTool(k, i) in t.started {
      StartedInRounds(world, 0, k, i, Rounds(world, 0));
    }
    if Calls(t.started, world, k, i) {
      var content, cs :| world.provider(k) == Came(Answer(content, Some(cs))) && i < |cs|;
      var p, q := EveryCallRuns(prompt, toolsParse, world, k, content, cs);
      assert RanAt(t.appended, t.started, world, k, cs, i, p, q);
    }
  }

  // ----- the last answer -----

  /** An answer without calls, or one with calls when no round is left, is appended as said and ends the turn. */
  predicate EndsWith(t: Turn, k: nat, content: Option<string>, ending: StopReason)
  {
    && t.appended != [] && t.appended[|t.appended| - 1] == Assistant(content, None)
    && t.started != [] && t.started[|t.started| - 1] == AtProvider(k) && t.ending == Ok(ending)
  }

  lemma EndsHere(world: World, k: nat, content: Option<string>, calls: Option<seq<ToolCall>>, t: Turn)
    requires k <= 10 && t == Rounds(world, k)
    requires world.provider(k) == Came(Answer(content, calls)) && (k == 10 || calls.None? || calls == Some([]))
    ensures EndsWith(t, k, content, if calls.None? || calls == Some([]) then EndTurn else MaxTurnRequests)
  {
  }

  lemma EndsBehind(t: Turn, rest: Turn, a: seq<Message>, b: seq<Suspension>, k: nat, content: Option<string>,
                   ending: StopReason)
    requires t.appended == a + rest.appended && t.started == b + rest.started && t.ending == rest.ending
    requires EndsWith(rest, k, content, ending)
    ensures EndsWith(t, k, content, ending)
  {
  }

  lemma {:induction false} RoundsEnd(world: World, round: nat, k: nat, content: Option<string>,
                                     calls: Option<seq<ToolCall>>, t: Turn, ending: StopReason)
    requires round <= k <= 10 && t == Rounds(world, round) && AtProvider(k) in t.started
    requires world.provider(k) == Came(Answer(content, calls)) && (k == 10 || calls.None? || calls == Some([]))
    requires ending == if calls.None? || calls == Some([]) then EndTurn else MaxTurnRequests
    ensures EndsWith(t, k, content, ending)
    decreases k - round
  {
    if round == k {
      EndsHere(world, k, content, calls, t);
    } else {
      var rest := Rounds(world, round + 1);
      var a, b := LaterCompletion(world, round, k, t, rest);
      RoundsEnd(world, round + 1, k, content, calls, rest, ending);
      EndsBehind(t, rest, a, b, k, content, ending);
    }
  }

  /**
   An answer without calls, whether the list is absent or empty, ends the turn with that answer as its last
   message; and so does an eleventh answer with calls, which are left out.
   */
  lemma LastAnswer(prompt: seq<Block>, toolsParse: bool, world: World, k: nat, content: Option<string>,
                   calls: Option<seq<ToolCall>>)
    requires k <= 10 && AtProvider(k) in TurnOf(prompt, toolsParse, world).started
    requires world.provider(k) == Came(Answer(content, calls)) && (k == 10 || calls.None? || calls == Some([]))
    ensures EndsWith(TurnOf(prompt, toolsParse, world), k, content,
                     if calls.None? || calls == Some([]) then EndTurn else MaxTurnRequests)
  {
    var t, rest := TurnOf(prompt, toolsParse, world), Rounds(world, 0);
    var ending := if calls.None? || calls == Some([]) then EndTurn else MaxTurnRequests;
    var a := TurnRounds(prompt, toolsParse, world, t, rest);
    RoundsEnd(world, 0, k, content, calls, rest, ending);
    EndsBehind(t, rest, a, [], k, content, ending);
  }

  // ----- every run -----

  /**
   In every run, finished or not, a turn that asked for a completion, with rounds left, and heard calls has
   appended the answer with all of them; it has started each whose predecessors it heard back from, in order,
   and appended each result it heard with the id and name of its call, in order right behind the answer.
   */
  lemma RunsEveryCall(steps: seq<Step>, t: TurnId, k: nat, content: Option<string>, cs: seq<ToolCall>)
    returns (p: nat, q: nat)
    requires Legal(Empty(), steps) && t in After(Empty(), steps).turns && k < 10 && cs != []
    requires var turn := After(Empty(), steps).turns[t];
      && AtProvider(k) in turn.started
      && k in turn.heard.provider && turn.heard.provider[k] == Answer(content, Some(cs))
    ensures var turn := After(Empty(), steps).turns[t];
      RoundAt(turn.appended, turn.started, WorldOf(turn.heard), k, content, cs, p, q)
  {
    var turn := After(Empty(), steps).turns[t];
    Reached(Empty(), steps);
    TurnIsReplayed(steps, t);
    p, q := EveryCallRuns(turn.prompt, turn.toolsParse, WorldOf(turn.heard), k, content, cs);
  }

  /**
   In every run a turn starts a tool if and only if it asked for the completion of its round, with rounds left,
   heard that call in the answer, and heard back from every call before it.
   */
  lemma RunsNoOtherCall(steps: seq<Step>, t: TurnId, k: nat, i: nat)
    requires Legal(Empty(), steps) && t in After(Empty(), steps).turns
    ensures var turn := After(Empty(), steps).turns[t];
      AtTool(k, i) in turn.started <==> Calls(turn.started, WorldOf(turn.heard), k, i)
  {
    var turn := After(Empty(), steps).turns[t];
    Reached(Empty(), steps);
    if turn.started != [] {
      TurnIsReplayed(steps, t);
      ToolStartedIff(turn.prompt, turn.toolsParse, WorldOf(turn.heard), k, i);
    }
  }

  // ----- what a turn has heard -----

  predicate Knows(heard: Heard, at: Suspension, event: Event)
  {
    match at
    case AtProvider(k) => event.Replied? && k in heard.provider && heard.provider[k] == event.reply
    case AtTool(k, i) => event.Returned? && (k, i) in heard.tool && heard.tool[(k, i)] == event.output
  }

  /** The step lets `t`, suspended at `at` and not woken by a cancel, go on with `event`. */
  predicate Tells(st: State, step: Step, t: TurnId, at: Suspension, event: Event)
  {
    step == Resume(t, event) && t in st.turns && st.turns[t].pc == Suspended(at) && !st.turns[t].notified
  }

  lemma AdvanceKnows(turn: TurnState, told: Event, at: Suspension, event: Event)
    requires turn.pc.Suspended? && Placed(turn) && Ready(turn, told)
    ensures Knows(Advance(turn, told).heard, at, event) <==>
      Knows(turn.heard, at, event) || (turn.pc.at == at && told == event)
  {
  }

  lemma KnowsStep(st: State, step: Step, t: TurnId, at: Suspension, event: Event)
    requires Enabled(st, step) && t in st.turns && (st.turns[t].pc.Suspended? ==> Placed(st.turns[t]))
    ensures t in Apply(st, step).turns
    ensures Knows(Apply(st, step).turns[t].heard, at, event) <==>
      Knows(st.turns[t].heard, at, event) || Tells(st, step, t, at, event)
  {
    if step.Resume? && step.turn == t && !st.turns[t].notified {
      AdvanceKnows(st.turns[t], step.event, at, event);
    }
  }

  lemma BegunKnowsNothing(st: State, step: Step, t: TurnId, at: Suspension, event: Event)
    requires Enabled(st, step) && t !in st.turns && t in Apply(st, step).turns
    ensures !Knows(Apply(st, step).turns[t].heard, at, event)
  {
  }

  /** Step `i` of the run does that. */
  ghost predicate TellsAt(steps: seq<Step>, i: nat, t: TurnId, at: Suspension, event: Event)
    requires Legal(Empty(), steps) && i < |steps|
  {
    Tells(At(steps, i), steps[i], t, at, event)
  }

  ghost predicate WasTold(steps: seq<Step>, t: TurnId, at: Suspension, event: Event)
    requires Legal(Empty(), steps)
  {
    exists i: nat | i < |steps| :: TellsAt(steps, i, t, at, event)
  }

  lemma ToldSoFar(steps: seq<Step>, n: nat, t: TurnId, at: Suspension, event: Event)
    requires n == |steps| - 1 && Legal(Empty(), steps) && Legal(Empty(), steps[..n])
    ensures WasTold(steps, t, at, event) <==> WasTold(steps[..n], t, at, event) || TellsAt(steps, n, t, at, event)
  {
    forall i: nat | i < n ensures TellsAt(steps, i, t, at, event) <==> TellsAt(steps[..n], i, t, at, event) {
      assert steps[..n][..i] == steps[..i];
    }
  }

  lemma NotToldBefore(steps: seq<Step>, t: TurnId, at: Suspension, event: Event)
    requires Legal(Empty(), steps) && t !in After(Empty(), steps).turns
    ensures !WasTold(steps, t, at, event)
  {
    forall i: nat | i < |steps| ensures !TellsAt(steps, i, t, at, event) {
      if t in At(steps, i).turns {
        assert steps == steps[..i] + steps[i..];
        Split(Empty(), steps[..i], steps[i..]);
        TurnStays(At(steps, i), steps[i..], t);
      }
    }
  }

  /**
   In every run, what a turn has heard of a completion or a tool is exactly what it was resumed with while it
   was suspended there and no cancel had woken it.
   */
  lemma {:induction false} HeardIffTold(steps: seq<Step>, t: TurnId, at: Suspension, event: Event)
    requires Legal(Empty(), steps) && t in After(Empty(), steps).turns
    ensures Knows(After(Empty(), steps).turns[t].heard, at, event) <==> WasTold(steps, t, at, event)
    decreases |steps|
  {
    var n := |steps| - 1;
    var before, st := steps[..n], At(steps, n);
    SplitLast(Empty(), steps);
    ToldSoFar(steps, n, t, at, event);
    if t in st.turns {
      HeardIffTold(before, t, at, event);
      Reached(Empty(), before);
      assert Sound(st.turns[t]);
      KnowsStep(st, steps[n], t, at, event);
    } else {
      NotToldBefore(before, t, at, event);
      BegunKnowsNothing(st, steps[n], t, at, event);
    }
  }
}
