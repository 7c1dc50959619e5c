/**
 The agent that fronts a model provider: one prompt turn is a loop of completions and tool rounds with
 a round budget, over a conversation that only grows, and a cancel may arrive wherever it is suspended.
 */
module ProviderAgent {
  import opened Basics

  const MAX_TOOL_ROUNDS_PER_TURN: nat := 10

  type SessionId = string

  datatype ToolCall = ToolCall(id: string, name: string, arguments: string)

  datatype Message =
    | System(text: string)
    | User(text: string)
    | Assistant(content: Option<string>, calls: Option<seq<ToolCall>>)
    | ToolResult(output: string, id: string, name: string)

  datatype StopReason = EndTurn | MaxTurnRequests | Cancelled

  datatype Error = UnknownSession | BadPrompt | BadToolSchema | ProviderFailed(reason: string)

  /** What the provider came back with. */
  datatype Reply = Answer(content: Option<string>, calls: Option<seq<ToolCall>>) | Failure(reason: string)

  /** How a suspension ended. A cancel that arrived during it wins over anything else that is ready. */
  datatype Wake<+T> = CancelArrived | Came(event: T)

  /** The outside world of one turn: its completions by number, its tools by round and place. */
  datatype World = World(provider: nat -> Wake<Reply>, tool: (nat, nat) -> Wake<string>)

  /** Something the turn started and waited for. */
  datatype Suspension = AtProvider(completion: nat) | AtTool(round: nat, place: nat)

  /** What the provider and the tools come back with when nothing cuts them short. */
  datatype Replies = Replies(provider: nat -> Reply, tool: (nat, nat) -> string)

  /** The world of a turn of `session`, `cancels` being the cancels handled during each of its suspensions. */
  function Delivered(session: SessionId, replies: Replies, cancels: Suspension -> seq<SessionId>): (world: World)
  {
    World((k: nat) => if session in cancels(AtProvider(k)) then CancelArrived else Came(replies.provider(k)),
          (k: nat, i: nat) => if session in cancels(AtTool(k, i)) then CancelArrived else Came(replies.tool(k, i)))
  }

  /** The history a session opens with. */
  function Opening(systemPrompt: Option<string>): (h: seq<Message>)
  {
    if systemPrompt.Some? then [System(systemPrompt.value)] else []
  }

  datatype Block = Text(text: string) | Unsupported

  function PromptText(blocks: seq<Block>): (r: Result<string, Error>)
  {
    if exists b | b in blocks :: b.Unsupported? then Err(BadPrompt)
    else if Joined(blocks) == "" then Err(BadPrompt)
    else Ok(Joined(blocks))
  }

  function Joined(blocks: seq<Block>): (text: string)
  {
    if blocks == [] then "" else (if blocks[0].Text? then blocks[0].text else "") + Joined(blocks[1..])
  }

  /** `prompt_text`. */
  method ReadPrompt(blocks: seq<Block>) returns (r: Result<string, Error>)
    ensures r == PromptText(blocks)
  {
    var text := "";
    for i := 0 to |blocks|
      invariant text == Joined(blocks[..i]) && forall b | b in blocks[..i] :: b.Text?
    {
      assert blocks[..i + 1] == blocks[..i] + [blocks[i]];
      JoinedAppend(blocks[..i], [blocks[i]]);
      match blocks[i]
      case Text(more) =>
        assert Joined([Text(more)]) == more;
        text := text + more;
      case Unsupported =>
        assert blocks[i] in blocks;
        return Err(BadPrompt);
    }
    assert blocks[..|blocks|] == blocks;
    return if text == "" then Err(BadPrompt) else Ok(text);
  }

  lemma {:induction false} JoinedAppend(a: seq<Block>, b: seq<Block>)
    ensures Joined(a + b) == Joined(a) + Joined(b)
  {
    if a == [] {
      assert a + b == b;
    } else {
      assert (a + b)[0] == a[0] && (a + b)[1..] == a[1..] + b;
      JoinedAppend(a[1..], b);
      Associate(if a[0].Text? then a[0].text else "", Joined(a[1..]), Joined(b));
    }
  }

  function Texts(texts: seq<string>): (blocks: seq<Block>)
  {
    if texts == [] then [] else [Text(texts[0])] + Texts(texts[1..])
  }

  /** The text of a prompt is all of its texts, one after another; a block that is none refuses it wherever it stands. */
  lemma {:induction false} PromptIsItsTexts(texts: seq<string>, after: seq<Block>)
    ensures Joined(Texts(texts)) == Flatten(texts)
    ensures PromptText(Texts(texts)) == if Flatten(texts) == "" then Err(BadPrompt) else Ok(Flatten(texts))
    ensures PromptText(Texts(texts) + [Unsupported] + after) == Err(BadPrompt)
  {
    if texts != [] {
      PromptIsItsTexts(texts[1..], after);
      assert Texts(texts)[1..] == Texts(texts[1..]);
    }
    TextsAreText(texts);
    assert (Texts(texts) + [Unsupported] + after)[|Texts(texts)|] == Unsupported;
  }

  lemma {:induction false} TextsAreText(texts: seq<string>)
    ensures forall b | b in Texts(texts) :: b.Text?
  {
    if texts != [] {
      TextsAreText(texts[1..]);
    }
  }

  // ----- one turn -----

  type Ending = Result<StopReason, Error>

  /** What a turn did: the messages it appended, what it started, and how it ended. */
  datatype Turn = Turn(appended: seq<Message>, started: seq<Suspension>, ending: Ending, cut: bool)

  function CallsOf(reply: Reply): (calls: seq<ToolCall>)
    requires reply.Answer?
  {
    if reply.calls.Some? then reply.calls.value else []
  }

  /** One tool round from call `i` on; `cut` when it was cancelled before the last result. */
  function Dispatch(world: World, round: nat, calls: seq<ToolCall>, i: nat): (t: Turn)
    requires i <= |calls|
    ensures t.cut <==> t.ending == Ok(Cancelled)
    decreases |calls| - i
  {
    if i == |calls| then Turn([], [], Ok(EndTurn), false)
    else
      match world.tool(round, i)
      case CancelArrived => Turn([], [AtTool(round, i)], Ok(Cancelled), true)
      case Came(output) =>
        var rest := Dispatch(world, round, calls, i + 1);
        rest.(appended := [ToolResult(output, calls[i].id, calls[i].name)] + rest.appended,
              started := [AtTool(round, i)] + rest.started)
  }

  /** The turn from completion `round` on, `round` tool rounds being spent. */
  function Rounds(world: World, round: nat): (t: Turn)
    requires round <= MAX_TOOL_ROUNDS_PER_TURN
    decreases MAX_TOOL_ROUNDS_PER_TURN - round
  {
    var here := [AtProvider(round)];
    match world.provider(round)
    case CancelArrived => Turn([], here, Ok(Cancelled), false)
    case Came(Failure(reason)) => Turn([], here, Err(ProviderFailed(reason)), false)
    case Came(Answer(content, calls)) =>
      var asked := CallsOf(Answer(content, calls));
      if asked == [] then Turn([Assistant(content, None)], here, Ok(EndTurn), false)
      else if round == MAX_TOOL_ROUNDS_PER_TURN then
        Turn([Assistant(content, None)], here, Ok(MaxTurnRequests), false)
      else
        var d := Dispatch(world, round, asked, 0);
        var first := Turn([Assistant(content, Some(asked))] + d.appended, here + d.started, d.ending, d.cut);
        if d.cut then first
        else
          var rest := Rounds(world, round + 1);
          Turn(first.appended + rest.appended, first.started + rest.started, rest.ending, rest.cut)
  }

  /** One prompt turn in an open session. */
  function TurnOf(prompt: seq<Block>, toolsParse: bool, world: World): (t: Turn)
  {
    match PromptText(prompt)
    case Err(e) => Turn([], [], Err(e), false)
    case Ok(text) =>
      if !toolsParse then Turn([User(text)], [], Err(BadToolSchema), false)
      else
        var t := Rounds(world, 0);
        t.(appended := [User(text)] + t.appended)
  }

  /** `whole` is what was done so far followed by `rest`. */
  predicate Continues(whole: Turn, done: seq<Message>, started: seq<Suspension>, rest: Turn)
  {
    && whole.appended == done + rest.appended && whole.started == started + rest.started
    && whole.ending == rest.ending && whole.cut == rest.cut
  }

  lemma ContinueDispatch(whole: Turn, done: seq<Message>, started: seq<Suspension>,
                         world: World, round: nat, calls: seq<ToolCall>, i: nat)
    requires i < |calls| && Continues(whole, done, started, Dispatch(world, round, calls, i))
    ensures var now := started + [AtTool(round, i)];
      if world.tool(round, i).CancelArrived? then
        whole == Turn(done, now, Ok(Cancelled), true)
      else
        var result := ToolResult(world.tool(round, i).event, calls[i].id, calls[i].name);
        Continues(whole, done + [result], now, Dispatch(world, round, calls, i + 1))
  {
    if world.tool(round, i).CancelArrived? {
      assert done + [] == done;
    } else {
      var result := ToolResult(world.tool(round, i).event, calls[i].id, calls[i].name);
      var rest := Dispatch(world, round, calls, i + 1);
      assert done + ([result] + rest.appended) == done + [result] + rest.appended;
      assert started + ([AtTool(round, i)] + rest.started) == started + [AtTool(round, i)] + rest.started;
    }
  }

  lemma ContinueRound(whole: Turn, done: seq<Message>, started: seq<Suspension>,
                      world: World, round: nat, content: Option<string>, calls: seq<ToolCall>)
    requires round < MAX_TOOL_ROUNDS_PER_TURN && Continues(whole, done, started, Rounds(world, round))
    requires world.provider(round).Came? && world.provider(round).event.Answer?
    requires content == world.provider(round).event.content && calls == CallsOf(world.provider(round).event)
    requires calls != []
    ensures var d := Dispatch(world, round, calls, 0);
      var done' := done + ([Assistant(content, Some(calls))] + d.appended);
      var started' := started + [AtProvider(round)] + d.started;
      if d.cut then whole == Turn(done', started', d.ending, true)
      else Continues(whole, done', started', Rounds(world, round + 1))
  {
    var asked, d, here := Assistant(content, Some(calls)), Dispatch(world, round, calls, 0), [AtProvider(round)];
    assert done + ([asked] + d.appended) == done + [asked] + d.appended;
    assert started + (here + d.started) == started + here + d.started;
    if !d.cut {
      var rest := Rounds(world, round + 1);
      assert done + ([asked] + d.appended + rest.appended) == done + [asked] + d.appended + rest.appended;
      assert started + (here + d.started + rest.started) == started + here + d.started + rest.started;
    }
  }

  /** The round that ends a turn: a failure, a plain answer, or one more call for tools than the budget allows. */
  lemma ContinueLast(whole: Turn, done: seq<Message>, started: seq<Suspension>, world: World, k: nat, reply: Reply)
    requires k <= MAX_TOOL_ROUNDS_PER_TURN && world.provider(k) == Came(reply)
    requires Continues(whole, done, started, Rounds(world, k))
    requires reply.Answer? ==> CallsOf(reply) == [] || k == MAX_TOOL_ROUNDS_PER_TURN
    ensures var here := started + [AtProvider(k)];
      whole == if reply.Failure? then Turn(done, here, Err(ProviderFailed(reply.reason)), false)
               else Turn(done + [Assistant(reply.content, None)], here,
                         Ok(if CallsOf(reply) == [] then EndTurn else MaxTurnRequests), false)
  {
    assert done + [] == done;
  }

  lemma ContinueCancelled(whole: Turn, done: seq<Message>, started: seq<Suspension>, world: World, k: nat)
    requires k <= MAX_TOOL_ROUNDS_PER_TURN && world.provider(k).CancelArrived?
    requires Continues(whole, done, started, Rounds(world, k))
    ensures whole == Turn(done, started + [AtProvider(k)], Ok(Cancelled), false)
  {
    assert done + [] == done;
  }

  /** The sessions with one history longer by `more`. */
  function Grown(sessions: map<SessionId, seq<Message>>, session: SessionId, more: seq<Message>):
    (grown: map<SessionId, seq<Message>>)
    requires session in sessions
  {
    sessions[session := sessions[session] + more]
  }

  lemma GrowNone(sessions: map<SessionId, seq<Message>>, session: SessionId)
    requires session in sessions
    ensures Grown(sessions, session, []) == sessions
  {
    assert sessions[session] + [] == sessions[session];
  }

  lemma GrowMore(sessions: map<SessionId, seq<Message>>, session: SessionId, a: seq<Message>, b: seq<Message>)
    requires session in sessions
    ensures Grown(Grown(sessions, session, a), session, b) == Grown(sessions, session, a + b)
  {
    assert sessions[session] + a + b == sessions[session] + (a + b);
  }

  // ----- the agent -----

  class Agent {
    const systemPrompt: Option<string>
    var sessions: map<SessionId, seq<Message>>
    /** The cancel signal of the turn running for a session, present only while one is. */
    var inFlight: map<SessionId, nat>
    var signalled: set<nat>
    var nextSession: nat
    var nextSignal: nat

    /** Sessions are numbered, and so are signals; a number is used once. */
    ghost predicate Valid()
      reads this
    {
      SignalsValid() && forall s | s in sessions :: IsIssued(s, nextSession)
    }

    ghost predicate SignalsValid()
      reads this
    {
      && (forall g | g in signalled :: g < nextSignal)
      && (forall s | s in inFlight :: inFlight[s] < nextSignal)
      && (forall s1, s2 | s1 in inFlight && s2 in inFlight :: inFlight[s1] == inFlight[s2] ==> s1 == s2)
    }

    constructor (systemPrompt: Option<string>)
      ensures Valid() && sessions == map[] && inFlight == map[] && this.systemPrompt == systemPrompt
    {
      this.systemPrompt := systemPrompt;
      sessions, inFlight, signalled, nextSession, nextSignal := map[], map[], {}, 0, 0;
    }

    static function SessionName(n: nat): string { "provider-" + Decimal(n) }

    /** The name of one of the first `count` sessions. */
    static ghost predicate IsIssued(name: string, count: nat)
    {
      exists n: nat :: n < count && name == SessionName(n)
    }

    /** A new session never replaces the history of an open one. */
    method NewSession() returns (id: SessionId)
      requires Valid()
      modifies this`sessions, this`nextSession
      ensures Valid() && id !in old(sessions)
      ensures sessions == old(sessions)[id := if systemPrompt.Some? then [System(systemPrompt.value)] else []]
    {
      id := SessionName(nextSession);
      forall n: nat | n < nextSession ensures SessionName(n) != id {
        if SessionName(n) == id {
          assert SessionName(n)[|"provider-"|..] == Decimal(n) && id[|"provider-"|..] == Decimal(nextSession);
          DecimalInjective(n, nextSession);
        }
      }
      nextSession := nextSession + 1;
      sessions := sessions[id := Opening(systemPrompt)];
      assert id == SessionName(nextSession - 1);
      forall s | s in old(sessions) ensures IsIssued(s, nextSession) { assert IsIssued(s, nextSession - 1); }
    }

    method PushMessage(session: SessionId, message: Message) returns (ok: bool)
      modifies this`sessions
      ensures ok == (session in old(sessions))
      ensures sessions == if ok then Grown(old(sessions), session, [message]) else old(sessions)
    {
      ok := session in sessions;
      if ok {
        sessions := sessions[session := sessions[session] + [message]];
      }
    }

    /** The signal registered for a turn is one no cancel has fired. */
    method BeginTurn(session: SessionId) returns (signal: nat)
      requires Valid()
      modifies this`inFlight, this`nextSignal
      ensures Valid() && inFlight == old(inFlight)[session := signal] && signal !in signalled
    {
      signal := nextSignal;
      nextSignal := nextSignal + 1;
      inFlight := inFlight[session := signal];
    }

    method EndTurn(session: SessionId)
      requires Valid()
      modifies this`inFlight
      ensures Valid() && inFlight == old(inFlight) - {session}
    {
      inFlight := inFlight - {session};
    }

    /** A cancel fires the signal of the turn in flight, and with none in flight changes nothing. */
    method Cancel(session: SessionId) returns (r: Result<(), Error>)
      requires SignalsValid()
      modifies this`signalled
      ensures SignalsValid() && (r.Err? <==> session !in sessions)
      ensures signalled == if r.Ok? && session in inFlight then old(signalled) + {inFlight[session]} else old(signalled)
    {
      if session !in sessions {
        return Err(UnknownSession);
      }
      if session in inFlight {
        signalled := signalled + {inFlight[session]};
      }
      return Ok(());
    }

    /** The turn `signal` was made for is the one registered for `session`. */
    predicate Registered(session: SessionId, signal: nat)
      reads this
    {
      session in sessions && session in inFlight && inFlight[session] == signal
    }

    /** While a turn of `session` is suspended other requests are handled; cancels are the ones that reach it. */
    method Suspend(session: SessionId, signal: nat, cancels: seq<SessionId>) returns (cancelled: bool)
      requires SignalsValid() && Registered(session, signal) && signal !in signalled
      modifies this`signalled
      ensures SignalsValid() && old(signalled) <= signalled
      ensures cancelled == (signal in signalled) == (session in cancels)
    {
      for i := 0 to |cancels|
        invariant SignalsValid() && old(signalled) <= signalled
        invariant signal in signalled <==> session in cancels[..i]
      {
        assert cancels[..i + 1] == cancels[..i] + [cancels[i]];
        var _ := Cancel(cancels[i]);
      }
      assert cancels[..|cancels|] == cancels;
      cancelled := signal in signalled;
    }

    /** The tools of one round in order, each result appended before the next tool starts. */
    method DispatchAll(session: SessionId, signal: nat, round: nat, calls: seq<ToolCall>,
                       replies: Replies, cancels: Suspension -> seq<SessionId>)
      returns (cut: bool, started: seq<Suspension>)
      requires SignalsValid() && Registered(session, signal) && signal !in signalled
      modifies this`sessions, this`signalled
      ensures SignalsValid() && old(signalled) <= signalled && (signal in signalled <==> cut)
      ensures var d := Dispatch(Delivered(session, replies, cancels), round, calls, 0);
        && sessions == Grown(old(sessions), session, d.appended) && cut == d.cut && started == d.started
    {
      started := [];
      ghost var world := Delivered(session, replies, cancels);
      ghost var whole := Dispatch(world, round, calls, 0);
      ghost var done: seq<Message> := [];
      GrowNone(sessions, session);
      for i := 0 to |calls|
        invariant SignalsValid() && Registered(session, signal) && signal !in signalled && old(signalled) <= signalled
        invariant sessions == Grown(old(sessions), session, done)
        invariant Continues(whole, done, started, Dispatch(world, round, calls, i))
      {
        ContinueDispatch(whole, done, started, world, round, calls, i);
        started := started + [AtTool(round, i)];
        var cancelled := Suspend(session, signal, cancels(AtTool(round, i)));
        if cancelled {
          return true, started;
        }
        var result := ToolResult(replies.tool(round, i), calls[i].id, calls[i].name);
        GrowMore(old(sessions), session, done, [result]);
        var pushed := PushMessage(session, result);
        done := done + [result];
      }
      assert done + [] == done && started + [] == started;
      cut := false;
    }

    /** One tool round: the assistant's message with its calls, then the tools. */
    method RunTools(session: SessionId, signal: nat, round: nat, content: Option<string>, calls: seq<ToolCall>,
                    replies: Replies, cancels: Suspension -> seq<SessionId>)
      returns (cut: bool, started: seq<Suspension>)
      requires SignalsValid() && Registered(session, signal) && signal !in signalled
      modifies this`sessions, this`signalled
      ensures SignalsValid() && old(signalled) <= signalled && (signal in signalled <==> cut)
      ensures var d := Dispatch(Delivered(session, replies, cancels), round, calls, 0);
        && sessions == Grown(old(sessions), session, [Assistant(content, Some(calls))] + d.appended)
        && cut == d.cut && started == d.started
    {
      var _ := PushMessage(session, Assistant(content, Some(calls)));
      GrowMore(old(sessions), session, [Assistant(content, Some(calls))],
               Dispatch(Delivered(session, replies, cancels), round, calls, 0).appended);
      cut, started := DispatchAll(session, signal, round, calls, replies, cancels);
    }

    /** One turn of `run_turn`'s loop: what it appended, and how the turn ended if it did. */
    method RunRound(session: SessionId, signal: nat, round: nat, replies: Replies, cancels: Suspension -> seq<SessionId>,
                    before: seq<Suspension>, ghost whole: Turn, ghost done: seq<Message>)
      returns (ending: Option<Ending>, started: seq<Suspension>, ghost more: seq<Message>)
      requires SignalsValid() && Registered(session, signal) && signal !in signalled
      requires round <= MAX_TOOL_ROUNDS_PER_TURN
      requires Continues(whole, done, before, Rounds(Delivered(session, replies, cancels), round))
      modifies this`sessions, this`signalled
      ensures SignalsValid() && old(signalled) <= signalled && (signal in signalled <==> ending == Some(Ok(Cancelled)))
      ensures sessions == Grown(old(sessions), session, more)
      ensures ending.Some? ==> whole.appended == done + more && whole.started == started && whole.ending == ending.value
      ensures ending.None? ==> round < MAX_TOOL_ROUNDS_PER_TURN
      ensures ending.None? ==>
        Continues(whole, done + more, started, Rounds(Delivered(session, replies, cancels), round + 1))
    {
      ghost var world := Delivered(session, replies, cancels);
      started, more := before + [AtProvider(round)], [];
      GrowNone(sessions, session);
      assert done + [] == done;
      var cancelled := Suspend(session, signal, cancels(AtProvider(round)));
      if cancelled {
        ContinueCancelled(whole, done, before, world, round);
        return Some(Ok(Cancelled)), started, more;
      }
      var reply := replies.provider(round);
      if reply.Failure? {
        ContinueLast(whole, done, before, world, round, reply);
        return Some(Err(ProviderFailed(reply.reason))), started, more;
      }
      var content, calls := reply.content, CallsOf(reply);
      if calls == [] || round == MAX_TOOL_ROUNDS_PER_TURN {
        ContinueLast(whole, done, before, world, round, reply);
        var _ := PushMessage(session, Assistant(content, None));
        return Some(Ok(if calls == [] then StopReason.EndTurn else MaxTurnRequests)), started, [Assistant(content, None)];
      }
      more := [Assistant(content, Some(calls))] + Dispatch(world, round, calls, 0).appended;
      ContinueRound(whole, done, before, world, round, content, calls);
      var cut, tools := RunTools(session, signal, round, content, calls, replies, cancels);
      started := started + tools;
      ending := if cut then Some(Ok(Cancelled)) else None;
    }

    /** The loop of `run_turn`. */
    method RunRounds(session: SessionId, signal: nat, replies: Replies, cancels: Suspension -> seq<SessionId>)
      returns (r: Ending, started: seq<Suspension>)
      requires SignalsValid() && Registered(session, signal) && signal !in signalled
      modifies this`sessions, this`signalled
      ensures SignalsValid() && old(signalled) <= signalled && (signal in signalled <==> r == Ok(Cancelled))
      ensures var t := Rounds(Delivered(session, replies, cancels), 0);
        && sessions == Grown(old(sessions), session, t.appended) && r == t.ending && started == t.started
    {
      started := [];
      GrowNone(sessions, session);
      ghost var turn := Rounds(Delivered(session, replies, cancels), 0);
      ghost var done: seq<Message> := [];
      assert [] + turn.appended == turn.appended && [] + turn.started == turn.started;
      var roundsLeft: nat := MAX_TOOL_ROUNDS_PER_TURN;
      while true
        invariant roundsLeft <= MAX_TOOL_ROUNDS_PER_TURN
        invariant SignalsValid() && Registered(session, signal) && signal !in signalled && old(signalled) <= signalled
        invariant sessions == Grown(old(sessions), session, done)
        invariant Continues(turn, done, started,
                            Rounds(Delivered(session, replies, cancels), MAX_TOOL_ROUNDS_PER_TURN - roundsLeft))
        decreases roundsLeft
      {
        var ending;
        ghost var more;
        ending, started, more :=
          RunRound(session, signal, MAX_TOOL_ROUNDS_PER_TURN - roundsLeft, replies, cancels, started, turn, done);
        GrowMore(old(sessions), session, done, more);
        done := done + more;
        if ending.Some? {
          return ending.value, started;
        }
        roundsLeft := roundsLeft - 1;
      }
    }

    /**
     `run_turn`: the session's history grows by exactly what the turn appends, and no other changes. The turn
     ends `Cancelled` exactly when its own signal fired.
     */
    method RunTurn(session: SessionId, prompt: seq<Block>, toolsParse: bool, signal: nat,
                   replies: Replies, cancels: Suspension -> seq<SessionId>)
      returns (r: Ending, started: seq<Suspension>)
      requires Valid() && session in inFlight && inFlight[session] == signal && signal !in signalled
      modifies this`sessions, this`signalled
      ensures Valid() && old(signalled) <= signalled && (signal in signalled <==> r == Ok(Cancelled))
      ensures session in old(sessions) ==>
        var t := TurnOf(prompt, toolsParse, Delivered(session, replies, cancels));
        && sessions == Grown(old(sessions), session, t.appended) && r == t.ending && started == t.started
      ensures session !in old(sessions) ==> sessions == old(sessions) && r.Err? && started == []
    {
      started := [];
      var text := PromptText(prompt);
      if text.Err? {
        r := Err(text.error);
        if session in sessions { GrowNone(sessions, session); }
        return;
      }
      var pushed := PushMessage(session, User(text.value));
      if !pushed {
        r := Err(UnknownSession);
        return;
      }
      if !toolsParse {
        r := Err(BadToolSchema);
        return;
      }
      r, started := RunRounds(session, signal, replies, cancels);
      GrowMore(old(sessions), session, [User(text.value)], Rounds(Delivered(session, replies, cancels), 0).appended);
    }

    /**
     `prompt`: a turn registered for its life, and forgotten after it whatever its ending. No cancel handled
     before it has any part in it, whatever signals had fired by then.
     */
    method Prompt(session: SessionId, prompt: seq<Block>, toolsParse: bool,
                  replies: Replies, cancels: Suspension -> seq<SessionId>) returns (r: Ending)
      requires Valid()
      modifies this`sessions, this`inFlight, this`signalled, this`nextSignal
      ensures Valid() && inFlight == old(inFlight) - {session}
      ensures session in old(sessions) ==>
        var t := TurnOf(prompt, toolsParse, Delivered(session, replies, cancels));
        sessions == Grown(old(sessions), session, t.appended) && r == t.ending
      ensures session !in old(sessions) ==> sessions == old(sessions) && r.Err?
    {
      var signal := BeginTurn(session);
      var started;
      r, started := RunTurn(session, prompt, toolsParse, signal, replies, cancels);
      EndTurn(session);
    }
  }
}
