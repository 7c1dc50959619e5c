/**
 Every interleaving of the sessions, turns and cancels of one agent. The agent runs on one thread, so a step
 is what it does between two awaits. A turn registers its signal when it begins and drops the registration
 when it ends; a cancel wakes whatever listens to the signal registered for its session just then, and
 leaves nothing behind for later; a suspended turn that was woken so ends before it looks at anything else.
 */
module TurnRuns {
  import opened Basics
  import opened ProviderAgent

  type TurnId = nat

  /** What a turn was told so far, by suspension. */
  datatype Heard = Heard(provider: map<nat, Reply>, tool: map<(nat, nat), string>)

  /** The world these answers make up: a cancel wherever nothing was heard. */
  function WorldOf(heard: Heard): (world: World)
  {
    World((k: nat) => if k in heard.provider then Came(heard.provider[k]) else CancelArrived,
          (k: nat, i: nat) => if (k, i) in heard.tool then Came(heard.tool[(k, i)]) else CancelArrived)
  }

  predicate Extends(more: Heard, heard: Heard)
  {
    && (forall k | k in heard.provider :: k in more.provider && more.provider[k] == heard.provider[k])
    && (forall p | p in heard.tool :: p in more.tool && more.tool[p] == heard.tool[p])
  }

  datatype Pc = Suspended(at: Suspension) | Over(ending: Ending)

  datatype TurnState = TurnState(
    session: SessionId,
    prompt: seq<Block>,
    toolsParse: bool,
    notified: bool,            // a cancel woke its one `Notified`
    heard: Heard,
    calls: seq<ToolCall>,      // the calls of the tool round it is in
    appended: seq<Message>,
    started: seq<Suspension>,
    pc: Pc)
  {
    function Said(more: seq<Message>, next: Pc): TurnState
    {
      this.(appended := appended + more, pc := next,
            started := if next.Suspended? then started + [next.at] else started)
    }

    /** `notify_waiters` wakes a `Notified` that exists, and stores nothing for one that does not. */
    function Woken(): TurnState { if pc.Suspended? then this.(notified := true) else this }

    /** Ended by a cancel that arrived during a tool. */
    predicate CutShort()
    {
      pc == Over(Ok(Cancelled)) && started != [] && started[|started| - 1].AtTool?
    }
  }

  /** What the awaited call came back with, if it did. */
  datatype Event = Nothing | Replied(reply: Reply) | Returned(output: string)

  /** The call a suspended turn waits for has come back. */
  predicate Ready(turn: TurnState, event: Event)
    requires turn.pc.Suspended?
  {
    match turn.pc.at
    case AtProvider(k) => event.Replied?
    case AtTool(k, i) => event.Returned? && i < |turn.calls|
  }

  /** A turn as its first stretch, up to the first await, leaves it. */
  function Opened(known: bool, session: SessionId, prompt: seq<Block>, toolsParse: bool): TurnState
  {
    var turn := TurnState(session, prompt, toolsParse, false, Heard(map[], map[]), [], [], [],
                          Over(Err(UnknownSession)));
    match PromptText(prompt)
    case Err(e) => turn.Said([], Over(Err(e)))
    case Ok(text) =>
      if !known then turn
      else turn.Said([User(text)], if toolsParse then Suspended(AtProvider(0)) else Over(Err(BadToolSchema)))
  }

  /** A turn that goes on with what it waited for, up to the next await. */
  function Advance(turn: TurnState, event: Event): (turn': TurnState)
    requires turn.pc.Suspended? && Ready(turn, event)
    ensures turn.appended <= turn'.appended
  {
    match turn.pc.at
    case AtProvider(k) =>
      var heard := turn.(heard := turn.heard.(provider := turn.heard.provider[k := event.reply]));
      if event.reply.Failure? then heard.Said([], Over(Err(ProviderFailed(event.reply.reason))))
      else
        var content, calls := event.reply.content, CallsOf(event.reply);
        if calls == [] then heard.Said([Assistant(content, None)], Over(Ok(EndTurn)))
        else if k >= MAX_TOOL_ROUNDS_PER_TURN then heard.Said([Assistant(content, None)], Over(Ok(MaxTurnRequests)))
        else heard.(calls := calls).Said([Assistant(content, Some(calls))], Suspended(AtTool(k, 0)))
    case AtTool(k, i) =>
      var heard := turn.(heard := turn.heard.(tool := turn.heard.tool[(k, i) := event.output]));
      heard.Said([ToolResult(event.output, turn.calls[i].id, turn.calls[i].name)],
                 Suspended(if i + 1 < |turn.calls| then AtTool(k, i + 1) else AtProvider(k + 1)))
  }

  /** A woken turn ends as cancelled, whatever else is ready; any other goes on. */
  function Resumed(turn: TurnState, event: Event): (turn': TurnState)
    requires turn.pc.Suspended? && (turn.notified || Ready(turn, event))
    ensures turn.appended <= turn'.appended && turn'.session == turn.session
  {
    if turn.notified then turn.(pc := Over(Ok(Cancelled))) else Advance(turn, event)
  }

  // ----- the agent -----

  /** `inFlight[s]` is the signal registered for session `s`, named by the turn that made it. */
  datatype State = State(
    sessions: map<SessionId, seq<Message>>,
    inFlight: map<SessionId, TurnId>,
    turns: map<TurnId, TurnState>)
  {
    /** Turn `t` stands as `turn` says and has appended `more`; over, it drops its session's registration. */
    function Settle(t: TurnId, turn: TurnState, more: seq<Message>): State
    {
      State(if turn.session in sessions then Grown(sessions, turn.session, more) else sessions,
            if turn.pc.Over? then inFlight - {turn.session} else inFlight,
            turns[t := turn])
    }

    /** `t` is suspended, and the one a cancel of its session reaches. */
    predicate Reachable(t: TurnId)
    {
      && t in turns && turns[t].pc.Suspended? && turns[t].session in sessions
      && turns[t].session in inFlight && inFlight[turns[t].session] == t
    }

    predicate Busy(session: SessionId)
    {
      exists t | t in turns :: turns[t].session == session && turns[t].pc.Suspended?
    }
  }

  datatype Step =
    | NewSession(session: SessionId, systemPrompt: Option<string>)
    | Begin(turn: TurnId, session: SessionId, prompt: seq<Block>, toolsParse: bool)
    | Cancel(session: SessionId)
    | Resume(turn: TurnId, event: Event)

  function Empty(): State { State(map[], map[], map[]) }

  predicate Enabled(st: State, step: Step)
  {
    match step
    case NewSession(s, _) => s !in st.sessions
    case Begin(t, _, _, _) => t !in st.turns
    case Cancel(_) => true
    case Resume(t, event) =>
      t in st.turns && st.turns[t].pc.Suspended? && (st.turns[t].notified || Ready(st.turns[t], event))
  }

  function Apply(st: State, step: Step): (st': State)
    requires Enabled(st, step)
  {
    match step
    case NewSession(s, systemPrompt) =>
      st.(sessions := st.sessions[s := Opening(systemPrompt)])
    case Begin(t, s, prompt, toolsParse) =>
      var turn := Opened(s in st.sessions, s, prompt, toolsParse);
      st.(inFlight := st.inFlight[s := t]).Settle(t, turn, turn.appended)
    case Cancel(s) =>
      if s in st.sessions && s in st.inFlight && st.inFlight[s] in st.turns then
        st.(turns := st.turns[st.inFlight[s] := st.turns[st.inFlight[s]].Woken()])
      else st
    case Resume(t, event) =>
      var turn' := Resumed(st.turns[t], event);
      st.Settle(t, turn', turn'.appended[|st.turns[t].appended|..])
  }

  predicate Legal(st: State, steps: seq<Step>)
    decreases |steps|
  {
    steps == [] || (Enabled(st, steps[0]) && Legal(Apply(st, steps[0]), steps[1..]))
  }

  function After(st: State, steps: seq<Step>): (st': State)
    requires Legal(st, steps)
    decreases |steps|
  {
    if steps == [] then st else After(Apply(st, steps[0]), steps[1..])
  }

  lemma {:induction false} Split(st: State, a: seq<Step>, b: seq<Step>)
    requires Legal(st, a + b)
    ensures Legal(st, a) && Legal(After(st, a), b) && After(st, a + b) == After(After(st, a), b)
    decreases |a|
  {
    if a == [] {
      assert a + b == b;
    } else {
      assert (a + b)[0] == a[0] && (a + b)[1..] == a[1..] + b;
      Split(Apply(st, a[0]), a[1..], b);
    }
  }

  lemma SplitLast(st: State, steps: seq<Step>)
    requires steps != [] && Legal(st, steps)
    ensures var before, last := steps[..|steps| - 1], steps[|steps| - 1];
      && Legal(st, before) && Enabled(After(st, before), last) && After(st, steps) == Apply(After(st, before), last)
  {
    var before, last := steps[..|steps| - 1], steps[|steps| - 1];
    assert steps == before + [last] && [last][1..] == [];
    Split(st, before, [last]);
  }

  lemma {:induction false} Concat(st: State, a: seq<Step>, b: seq<Step>)
    requires Legal(st, a) && Legal(After(st, a), b)
    ensures Legal(st, a + b) && After(st, a + b) == After(After(st, a), b)
    decreases |a|
  {
    if a == [] {
      assert a + b == b;
    } else {
      assert (a + b)[0] == a[0] && (a + b)[1..] == a[1..] + b;
      Concat(Apply(st, a[0]), a[1..], b);
    }
  }

  lemma TwoSteps(st: State, s1: Step, s2: Step)
    requires Enabled(st, s1) && Enabled(Apply(st, s1), s2)
    ensures Legal(st, [s1, s2]) && After(st, [s1, s2]) == Apply(Apply(st, s1), s2)
  {
    assert [s1, s2][1..] == [s2] && [s2][1..] == [];
    assert Legal(Apply(st, s1), [s2]);
    assert After(Apply(st, s1), [s2]) == Apply(Apply(st, s1), s2);
  }

  lemma FourSteps(st: State, s1: Step, s2: Step, s3: Step, s4: Step)
    requires Enabled(st, s1) && Enabled(Apply(st, s1), s2)
    requires var mid := Apply(Apply(st, s1), s2); Enabled(mid, s3) && Enabled(Apply(mid, s3), s4)
    ensures Legal(st, [s1, s2, s3, s4])
    ensures After(st, [s1, s2, s3, s4]) == Apply(Apply(Apply(Apply(st, s1), s2), s3), s4)
  {
    var mid := Apply(Apply(st, s1), s2);
    TwoSteps(st, s1, s2);
    TwoSteps(mid, s3, s4);
    Concat(st, [s1, s2], [s3, s4]);
    assert [s1, s2] + [s3, s4] == [s1, s2, s3, s4];
  }

  // ----- a turn of a run is the turn of its world -----

  /** The rest of a tool round from call `i`, and what comes after it. */
  function RoundFrom(world: World, k: nat, calls: seq<ToolCall>, i: nat): (t: Turn)
    requires k < MAX_TOOL_ROUNDS_PER_TURN && i <= |calls|
  {
    var d := Dispatch(world, k, calls, i);
    if d.cut then d
    else
      var rest := Rounds(world, k + 1);
      Turn(d.appended + rest.appended, d.started + rest.started, rest.ending, rest.cut)
  }

  /** The turn is somewhere `run_turn` can be, and has heard nothing of what it waits for. */
  predicate Placed(turn: TurnState)
    requires turn.pc.Suspended?
  {
    && turn.started != [] && turn.started[|turn.started| - 1] == turn.pc.at
    && match turn.pc.at
       case AtProvider(k) =>
         && k <= MAX_TOOL_ROUNDS_PER_TURN
         && (forall n | n in turn.heard.provider :: n < k) && (forall p | p in turn.heard.tool :: p.0 < k)
       case AtTool(k, i) =>
         && k < MAX_TOOL_ROUNDS_PER_TURN && i < |turn.calls|
         && (forall n | n in turn.heard.provider :: n <= k)
         && (forall p | p in turn.heard.tool :: p.0 < k || (p.0 == k && p.1 < i))
  }

  function RestAt(world: World, turn: TurnState): (t: Turn)
    requires turn.pc.Suspended? && Placed(turn)
  {
    match turn.pc.at
    case AtProvider(k) => Rounds(world, k)
    case AtTool(k, i) => RoundFrom(world, k, turn.calls, i)
  }

  /** `whole` is what the turn did so far, and then what is left of it in `world`. */
  predicate OnCourse(whole: Turn, world: World, turn: TurnState)
    requires turn.pc.Suspended? && Placed(turn)
  {
    Continues(whole, turn.appended, turn.started[..|turn.started| - 1], RestAt(world, turn))
  }

  /** The turn that these answers make up. */
  function Whole(turn: TurnState, heard: Heard): (whole: Turn)
  {
    TurnOf(turn.prompt, turn.toolsParse, WorldOf(heard))
  }

  /** Whatever else it may hear, the turn is on course; over, it is the turn of what it heard. */
  ghost predicate Sound(turn: TurnState)
  {
    if turn.pc.Suspended? then
      Placed(turn) && forall more: Heard | Extends(more, turn.heard) :: OnCourse(Whole(turn, more), WorldOf(more), turn)
    else
      && (turn.pc.ending == Ok(Cancelled) <==> turn.notified)
      && (if turn.pc.ending == Err(UnknownSession) then turn.appended == [] && turn.started == []
          else Whole(turn, turn.heard) == Turn(turn.appended, turn.started, turn.pc.ending, turn.CutShort()))
  }

  lemma {:induction false} OpenedSound(known: bool, session: SessionId, prompt: seq<Block>, toolsParse: bool)
    ensures Sound(Opened(known, session, prompt, toolsParse))
    ensures !Opened(known, session, prompt, toolsParse).notified
  {
    var turn := Opened(known, session, prompt, toolsParse);
    if turn.pc.Suspended? {
      forall more: Heard ensures OnCourse(Whole(turn, more), WorldOf(more), turn) {
        OpenedOnCourse(turn, PromptText(prompt).value, WorldOf(more));
      }
    }
  }

  lemma OpenedOnCourse(turn: TurnState, text: string, world: World)
    requires PromptText(turn.prompt) == Ok(text) && turn.toolsParse && turn.heard == Heard(map[], map[])
    requires turn.pc == Suspended(AtProvider(0)) && turn.appended == [User(text)] && turn.started == [AtProvider(0)]
    ensures Placed(turn) && OnCourse(TurnOf(turn.prompt, turn.toolsParse, world), world, turn)
  {
    var rest := Rounds(world, 0);
    assert turn.started[..0] == [] && [] + rest.started == rest.started;
  }

  lemma AfterReply(whole: Turn, done: seq<Message>, started: seq<Suspension>, world: World, k: nat, reply: Reply)
    requires k < MAX_TOOL_ROUNDS_PER_TURN && world.provider(k) == Came(reply)
    requires reply.Answer? && CallsOf(reply) != [] && Continues(whole, done, started, Rounds(world, k))
    ensures Continues(whole, done + [Assistant(reply.content, Some(CallsOf(reply)))], started + [AtProvider(k)],
                      RoundFrom(world, k, CallsOf(reply), 0))
  {
    var asked, here := [Assistant(reply.content, Some(CallsOf(reply)))], [AtProvider(k)];
    var d, rest := Dispatch(world, k, CallsOf(reply), 0), Rounds(world, k + 1);
    if d.cut {
      Associate(done, asked, d.appended);
      Associate(started, here, d.started);
    } else {
      Associate(asked, d.appended, rest.appended);
      Associate(here, d.started, rest.started);
      Associate(done, asked, d.appended + rest.appended);
      Associate(started, here, d.started + rest.started);
    }
  }

  lemma AfterResult(whole: Turn, done: seq<Message>, started: seq<Suspension>, world: World,
                    k: nat, calls: seq<ToolCall>, i: nat, output: string)
    requires k < MAX_TOOL_ROUNDS_PER_TURN && i < |calls| && world.tool(k, i) == Came(output)
    requires Continues(whole, done, started, RoundFrom(world, k, calls, i))
    ensures Continues(whole, done + [ToolResult(output, calls[i].id, calls[i].name)], started + [AtTool(k, i)],
                      if i + 1 < |calls| then RoundFrom(world, k, calls, i + 1) else Rounds(world, k + 1))
  {
    var result, here := [ToolResult(output, calls[i].id, calls[i].name)], [AtTool(k, i)];
    var d, rest := Dispatch(world, k, calls, i + 1), Rounds(world, k + 1);
    if d.cut {
      Associate(done, result, d.appended);
      Associate(started, here, d.started);
    } else {
      Associate(result, d.appended, rest.appended);
      Associate(here, d.started, rest.started);
      Associate(done, result, d.appended + rest.appended);
      Associate(started, here, d.started + rest.started);
      assert [] + rest.appended == rest.appended && [] + rest.started == rest.started;
    }
  }

  /** What hearing what it waited for comes to, in every world that agrees. */
  predicate Followed(whole: Turn, world: World, turn': TurnState)
  {
    if turn'.pc.Suspended? then Placed(turn') && OnCourse(whole, world, turn')
    else whole == Turn(turn'.appended, turn'.started, turn'.pc.ending, false)
  }

  lemma StillPlaced(turn: TurnState, event: Event)
    requires turn.pc.Suspended? && Placed(turn) && Ready(turn, event)
    ensures var turn' := Advance(turn, event);
      && turn'.prompt == turn.prompt && turn'.toolsParse == turn.toolsParse
      && (turn'.pc.Suspended? ==> Placed(turn') && turn'.started[..|turn'.started| - 1] == turn.started)
  {
  }

  lemma {:induction false} HeardReply(whole: Turn, turn: TurnState, event: Event, world: World, k: nat)
    requires turn.pc == Suspended(AtProvider(k)) && Placed(turn) && Ready(turn, event)
    requires OnCourse(whole, world, turn) && world.provider(k) == Came(event.reply)
    ensures Followed(whole, world, Advance(turn, event))
  {
    var turn' := Advance(turn, event);
    var done := turn.started[..|turn.started| - 1];
    StillPlaced(turn, event);
    assert turn.started == done + [turn.pc.at];
    if turn'.pc.Suspended? {
      AfterReply(whole, turn.appended, done, world, k, event.reply);
    } else {
      ContinueLast(whole, turn.appended, done, world, k, event.reply);
    }
  }

  lemma {:induction false} HeardResult(whole: Turn, turn: TurnState, event: Event, world: World, k: nat, i: nat)
    requires turn.pc == Suspended(AtTool(k, i)) && Placed(turn) && Ready(turn, event)
    requires OnCourse(whole, world, turn) && world.tool(k, i) == Came(event.output)
    ensures Followed(whole, world, Advance(turn, event))
  {
    var done := turn.started[..|turn.started| - 1];
    StillPlaced(turn, event);
    assert turn.started == done + [turn.pc.at];
    AfterResult(whole, turn.appended, done, world, k, turn.calls, i, event.output);
  }

  /** Hearing what it waited for keeps a turn on course in every world that agrees. */
  lemma {:induction false} AdvanceOnCourse(turn: TurnState, event: Event, more: Heard)
    requires turn.pc.Suspended? && Placed(turn) && Ready(turn, event)
    requires OnCourse(Whole(turn, more), WorldOf(more), turn)
    requires Extends(more, Advance(turn, event).heard)
    ensures Followed(Whole(turn, more), WorldOf(more), Advance(turn, event))
  {
    var heard := Advance(turn, event).heard;
    match turn.pc.at
    case AtProvider(k) =>
      assert k in heard.provider && WorldOf(more).provider(k) == Came(event.reply);
      HeardReply(Whole(turn, more), turn, event, WorldOf(more), k);
    case AtTool(k, i) =>
      assert (k, i) in heard.tool && WorldOf(more).tool(k, i) == Came(event.output);
      HeardResult(Whole(turn, more), turn, event, WorldOf(more), k, i);
  }

  lemma HeardGrows(turn: TurnState, event: Event, more: Heard)
    requires turn.pc.Suspended? && Placed(turn) && Ready(turn, event) && Extends(more, Advance(turn, event).heard)
    ensures Extends(more, turn.heard)
  {
    var heard, heard' := turn.heard, Advance(turn, event).heard;
    forall k | k in heard.provider ensures k in more.provider && more.provider[k] == heard.provider[k] {
      assert k in heard'.provider && heard'.provider[k] == heard.provider[k];
    }
    forall p | p in heard.tool ensures p in more.tool && more.tool[p] == heard.tool[p] {
      assert p in heard'.tool && heard'.tool[p] == heard.tool[p];
    }
  }

  lemma {:induction false} AdvanceSound(turn: TurnState, event: Event)
    requires turn.pc.Suspended? && Sound(turn) && Ready(turn, event) && !turn.notified
    ensures Sound(Advance(turn, event))
  {
    var turn' := Advance(turn, event);
    forall more: Heard | Extends(more, turn'.heard)
      ensures Followed(Whole(turn, more), WorldOf(more), turn')
    {
      HeardGrows(turn, event, more);
      AdvanceOnCourse(turn, event, more);
    }
    assert Extends(turn'.heard, turn'.heard);
  }

  /** A turn ended by a cancel is the turn of a world in which the cancel arrived where it was suspended. */
  lemma {:induction false} CancelledSound(turn: TurnState)
    requires turn.pc.Suspended? && Sound(turn)
    ensures Whole(turn, turn.heard) == Turn(turn.appended, turn.started, Ok(Cancelled), turn.pc.at.AtTool?)
  {
    assert Extends(turn.heard, turn.heard);
    assert RestAt(WorldOf(turn.heard), turn) == Turn([], [turn.pc.at], Ok(Cancelled), turn.pc.at.AtTool?);
    assert turn.appended + [] == turn.appended;
    assert turn.started == turn.started[..|turn.started| - 1] + [turn.pc.at];
  }

  lemma {:induction false} ResumedSound(turn: TurnState, event: Event)
    requires turn.pc.Suspended? && Sound(turn) && (turn.notified || Ready(turn, event))
    ensures Sound(Resumed(turn, event))
  {
    if turn.notified {
      CancelledSound(turn);
    } else {
      AdvanceSound(turn, event);
    }
  }

  // ----- the invariant -----

  ghost predicate AllSound(st: State)
  {
    forall t | t in st.turns :: Sound(st.turns[t])
  }

  /** Only a turn of an open session starts anything; what is registered for a session is one of its turns that listens. */
  predicate Registry(st: State)
  {
    && (forall t | t in st.turns && (st.turns[t].pc.Suspended? || st.turns[t].started != []) ::
          st.turns[t].session in st.sessions)
    && (forall s | s in st.inFlight ::
          st.inFlight[s] in st.turns && st.turns[st.inFlight[s]].session == s && st.turns[st.inFlight[s]].pc.Suspended?)
  }

  lemma {:induction false} SoundStep(st: State, step: Step)
    requires AllSound(st) && Registry(st) && Enabled(st, step)
    ensures AllSound(Apply(st, step))
  {
    match step
    case NewSession(_, _) =>
    case Begin(_, s, prompt, toolsParse) =>
      OpenedSound(s in st.sessions, s, prompt, toolsParse);
    case Cancel(s) =>
      if s in st.inFlight {
        NotifiedSound(st.turns[st.inFlight[s]]);
      }
    case Resume(t, event) => ResumedSound(st.turns[t], event);
  }

  lemma {:induction false} NotifiedSound(turn: TurnState)
    requires Sound(turn) && turn.pc.Suspended?
    ensures Sound(turn.(notified := true))
  {
    forall more: Heard | Extends(more, turn.heard)
      ensures OnCourse(Whole(turn, more), WorldOf(more), turn.(notified := true))
    {
      assert OnCourse(Whole(turn, more), WorldOf(more), turn);
    }
  }

  lemma RegistryStep(st: State, step: Step)
    requires Registry(st) && Enabled(st, step)
    ensures Registry(Apply(st, step))
  {
    match step
    case NewSession(_, _) => assert Apply(st, step).turns == st.turns;
    case Begin(t, s, prompt, toolsParse) =>
      var turn := Opened(s in st.sessions, s, prompt, toolsParse);
      RegistryBegin(st, t, s, turn, turn.appended);
    case Cancel(s) => RegistryCancel(st, s);
    case Resume(t, event) => RegistryResume(st, t, Resumed(st.turns[t], event));
  }

  lemma RegistryBegin(st: State, t: TurnId, s: SessionId, turn: TurnState, more: seq<Message>)
    requires Registry(st) && t !in st.turns && turn.session == s
    requires turn.pc.Suspended? || turn.started != [] ==> s in st.sessions
    ensures Registry(st.(inFlight := st.inFlight[s := t]).Settle(t, turn, more))
  {
  }

  lemma RegistryCancel(st: State, s: SessionId)
    requires Registry(st)
    ensures Registry(Apply(st, Cancel(s)))
  {
  }

  lemma RegistryResume(st: State, t: TurnId, turn': TurnState)
    requires Registry(st) && t in st.turns && st.turns[t].pc.Suspended? && turn'.session == st.turns[t].session
    ensures forall more :: Registry(st.Settle(t, turn', more))
  {
  }

  lemma {:induction false} Reached(st: State, steps: seq<Step>)
    requires AllSound(st) && Registry(st) && Legal(st, steps)
    ensures AllSound(After(st, steps)) && Registry(After(st, steps))
    decreases |steps|
  {
    if steps != [] {
      SoundStep(st, steps[0]);
      RegistryStep(st, steps[0]);
      Reached(Apply(st, steps[0]), steps[1..]);
    }
  }
}
