/** What the turns of every run of an agent leave in the histories of its sessions. */
module TurnHistories {
  import opened Basics
  import opened ProviderAgent
  import opened ProviderTurns
  import opened TurnRuns
  import opened TurnCancels

  /**
   In every run, a turn did exactly what the loop does in the world made up of what the turn heard, a cancel
   where it was woken by one; a turn still suspended is what it would be if it were cancelled now.
   */
  lemma TurnIsReplayed(steps: seq<Step>, t: TurnId)
    requires Legal(Empty(), steps) && t in After(Empty(), steps).turns
    ensures var turn := After(Empty(), steps).turns[t];
      turn.pc != Over(Err(UnknownSession)) ==>
        Whole(turn, turn.heard) ==
          if turn.pc.Suspended? then Turn(turn.appended, turn.started, Ok(Cancelled), turn.pc.at.AtTool?)
          else Turn(turn.appended, turn.started, turn.pc.ending, turn.CutShort())
  {
    Reached(Empty(), steps);
    var turn := After(Empty(), steps).turns[t];
    if turn.pc.Suspended? {
      CancelledSound(turn);
    }
  }

  /**
   In every run, finished or not, a turn has made at most eleven completions and ten tool rounds, has ended for
   its budget exactly when the eleventh answer still asked for tools, and has appended the user's message and
   then exactly what it heard, in order.
   */
  lemma RunsKeepBudget(steps: seq<Step>, t: TurnId)
    requires Legal(Empty(), steps) && t in After(Empty(), steps).turns
    ensures var turn := After(Empty(), steps).turns[t];
      && Completions(turn.started) <= 11 && (forall s | s in turn.started :: s.AtTool? ==> s.round < 10)
      && (turn.pc == Over(Ok(MaxTurnRequests)) <==>
            Completions(turn.started) == 11 && AsksForTools(WorldOf(turn.heard).provider(10)))
      && (turn.started != [] ==>
            && PromptText(turn.prompt).Ok?
            && turn.appended == [User(PromptText(turn.prompt).value)] + Transcript(WorldOf(turn.heard), turn.started))
  {
    var turn := After(Empty(), steps).turns[t];
    Reached(Empty(), steps);
    TurnIsReplayed(steps, t);
    TurnBudget(turn.prompt, turn.toolsParse, WorldOf(turn.heard));
    HistoryIsWhatWasSaid(turn.prompt, turn.toolsParse, WorldOf(turn.heard));
  }

  // ----- the history of a session -----

  function History(st: State, s: SessionId): (h: seq<Message>)
  {
    if s in st.sessions then st.sessions[s] else []
  }

  /** Turn `t` of session `s` is suspended at a tool. */
  predicate InTools(st: State, t: TurnId, s: SessionId)
  {
    t in st.turns && st.turns[t].session == s && st.turns[t].pc.Suspended? && st.turns[t].pc.at.AtTool?
  }

  /** A cancel of `s` reaches a turn that is suspended at a tool. */
  ghost predicate CutsTools(st: State, step: Step, s: SessionId)
  {
    step == Cancel(s) && exists t :: InTools(st, t, s) && st.Reachable(t)
  }

  /** A turn adds to the history of `s` while another turn of `s` is suspended at a tool. */
  ghost predicate Intrudes(st: State, step: Step, s: SessionId)
    requires Enabled(st, step)
  {
    && (step.Begin? || step.Resume?) && History(Apply(st, step), s) != History(st, s)
    && exists t :: t != step.turn && InTools(st, t, s)
  }

  ghost predicate Spoils(st: State, step: Step, s: SessionId)
    requires Enabled(st, step)
  {
    CutsTools(st, step, s) || Intrudes(st, step, s)
  }

  /** How a history stands: whole; in the tool round of `turn`, asked for at `k`; or missing result `j` of `k`. */
  datatype Health = Rested | MidRound(turn: TurnId, k: nat) | Broken(k: nat, j: nat)

  /** The history ends in the tool round asked for at `k`, with a result for each call before `i`. */
  predicate HalfAnswered(h: seq<Message>, k: nat, calls: seq<ToolCall>, i: nat)
  {
    && |h| == k + 1 + i && i < |calls| && Disciplined(h[..k])
    && h[k].Assistant? && h[k].calls == Some(calls) && Answered(calls[..i], h[k + 1..])
  }

  /** `t` is in tool round `k`, not woken, and the only turn of `s` that is in one. */
  ghost predicate InRound(st: State, s: SessionId, t: TurnId, k: nat)
  {
    && InTools(st, t, s) && !st.turns[t].notified && (forall u | InTools(st, u, s) :: u == t)
    && HalfAnswered(History(st, s), k, st.turns[t].calls, st.turns[t].pc.at.place)
  }

  /** Broken, and no turn is left that would add the missing result. */
  ghost predicate StaysBroken(st: State, s: SessionId, k: nat, j: nat)
  {
    && BrokenAt(History(st, s), k, j)
    && (k + 1 + j == |History(st, s)| ==> forall u | InTools(st, u, s) :: st.turns[u].notified)
  }

  ghost predicate Resting(st: State, s: SessionId)
  {
    Disciplined(History(st, s)) && forall u :: !InTools(st, u, s)
  }

  ghost predicate Is(st: State, s: SessionId, health: Health)
  {
    if health.Rested? then Resting(st, s)
    else if health.MidRound? then InRound(st, s, health.turn, health.k)
    else StaysBroken(st, s, health.k, health.j)
  }

  // ----- messages and health -----

  lemma HalfIsBroken(h: seq<Message>, k: nat, calls: seq<ToolCall>, i: nat)
    requires HalfAnswered(h, k, calls, i)
    ensures BrokenAt(h, k, i)
  {
  }

  /** The tool round starts. */
  lemma RoundStarts(h: seq<Message>, content: Option<string>, calls: seq<ToolCall>)
    requires Disciplined(h) && calls != []
    ensures HalfAnswered(h + [Assistant(content, Some(calls))], |h|, calls, 0)
  {
    var h' := h + [Assistant(content, Some(calls))];
    assert h'[..|h|] == h && calls[..0] == [] && h'[|h| + 1..] == [];
  }

  lemma AnsweredOne(calls: seq<ToolCall>, i: nat, results: seq<Message>, r: Message)
    requires i < |calls| && Answered(calls[..i], results)
    requires r.ToolResult? && r.id == calls[i].id && r.name == calls[i].name
    ensures Answered(calls[..i + 1], results + [r])
  {
    assert calls[..i + 1] == calls[..i] + [calls[i]];
  }

  /** One more result comes; the last one completes the round. */
  lemma RoundGoesOn(h: seq<Message>, k: nat, calls: seq<ToolCall>, i: nat, r: Message)
    requires HalfAnswered(h, k, calls, i) && r.ToolResult? && r.id == calls[i].id && r.name == calls[i].name
    ensures if i + 1 < |calls| then HalfAnswered(h + [r], k, calls, i + 1) else Disciplined(h + [r])
  {
    var h' := h + [r];
    AnsweredOne(calls, i, h[k + 1..], r);
    assert h'[..k] == h[..k] && h'[k + 1..] == h[k + 1..] + [r];
    if i + 1 == |calls| {
      assert calls[..i + 1] == calls && h' == h'[..k] + ([h'[k]] + h'[k + 1..]);
      RoundDiscipline(h[k].content, calls, h'[k + 1..]);
      DisciplinedAppend(h[..k], [h'[k]] + h'[k + 1..]);
    }
  }

  lemma BrokenInside(h: seq<Message>, k: nat, j: nat, m: Message)
    requires BrokenAt(h, k, j) && k + 1 + j < |h|
    ensures BrokenAt(h + [m], k, j)
  {
    assert (h + [m])[..k] == h[..k];
  }

  // ----- one step -----

  /** The history of `s` stays, no turn of it enters a tool round, and those in one stay as they are. */
  ghost predicate Calm(st: State, st': State, s: SessionId)
  {
    && History(st', s) == History(st, s)
    && forall u | InTools(st', u, s) :: InTools(st, u, s) && st'.turns[u] == st.turns[u]
  }

  lemma StaysCalm(st: State, st': State, s: SessionId, health: Health)
    requires Is(st, s, health) && Calm(st, st', s)
    requires health.MidRound? ==> InTools(st', health.turn, s)
    ensures Is(st', s, health)
  {
  }

  /** The message breaks a round that it comes into, and mends none. */
  lemma MessageBreaks(st: State, st': State, s: SessionId, health: Health, m: Message) returns (health': Health)
    requires Is(st, s, health) && !health.Rested?
    requires History(st', s) == History(st, s) + [m] && !m.ToolResult?
    ensures health'.Broken? && Is(st', s, health')
  {
    var h := History(st, s);
    if health.MidRound? {
      var turn := st.turns[health.turn];
      HalfIsBroken(h, health.k, turn.calls, turn.pc.at.place);
      health' := Broken(health.k, turn.pc.at.place);
    } else {
      health' := health;
    }
    BrokenStays(h, health'.k, health'.j, [m]);
  }

  /** What a step makes of a history: it breaks exactly if it was broken or the step spoils it. */
  ghost predicate Becomes(st: State, step: Step, s: SessionId, health: Health, health': Health)
    requires Enabled(st, step)
  {
    Is(Apply(st, step), s, health') && (health'.Broken? <==> health.Broken? || Spoils(st, step, s))
  }

  predicate Touches(st: State, step: Step, s: SessionId)
    requires Enabled(st, step)
  {
    s == if step.Resume? then st.turns[step.turn].session else step.session
  }

  lemma OtherStep(st: State, step: Step, s: SessionId, u: TurnId)
    requires Registry(st) && Enabled(st, step) && !Touches(st, step, s)
    ensures History(Apply(st, step), s) == History(st, s)
    ensures InTools(Apply(st, step), u, s) <==> InTools(st, u, s)
    ensures InTools(st, u, s) ==> Apply(st, step).turns[u] == st.turns[u]
  {
  }

  lemma OtherSession(st: State, step: Step, s: SessionId, health: Health)
    requires Registry(st) && Enabled(st, step) && !Touches(st, step, s) && Is(st, s, health)
    ensures Becomes(st, step, s, health, health)
  {
    forall u ensures InTools(Apply(st, step), u, s) <==> InTools(st, u, s)
      ensures InTools(st, u, s) ==> Apply(st, step).turns[u] == st.turns[u]
    {
      OtherStep(st, step, s, u);
    }
    OtherStep(st, step, s, 0);
    StaysCalm(st, Apply(st, step), s, health);
  }

  lemma SessionOpens(st: State, step: Step, s: SessionId, health: Health)
    requires Registry(st) && Enabled(st, step) && step.NewSession? && step.session == s && Is(st, s, health)
    ensures Becomes(st, step, s, health, health)
  {
    var h := Apply(st, step).sessions[s];
    assert h == [] || h[1..] == [];
    assert forall u :: !InTools(st, u, s) && !InTools(Apply(st, step), u, s);
  }

  /** A cancel wakes the turn it reaches, and changes no other. */
  lemma CancelWakes(st: State, s: SessionId, u: TurnId)
    requires Registry(st)
    ensures var st' := Apply(st, Cancel(s));
      && History(st', s) == History(st, s) && (InTools(st', u, s) <==> InTools(st, u, s))
      && (InTools(st, u, s) ==> st'.turns[u] == if st.Reachable(u) then st.turns[u].(notified := true) else st.turns[u])
  {
  }

  lemma CancelledRound(st: State, s: SessionId, t: TurnId, k: nat) returns (health': Health)
    requires Registry(st) && InRound(st, s, t, k)
    ensures Becomes(st, Cancel(s), s, MidRound(t, k), health')
  {
    var turn := st.turns[t];
    forall u ensures InTools(Apply(st, Cancel(s)), u, s) <==> InTools(st, u, s) { CancelWakes(st, s, u); }
    CancelWakes(st, s, t);
    health' := MidRound(t, k);
    if st.Reachable(t) {
      HalfIsBroken(History(st, s), k, turn.calls, turn.pc.at.place);
      health' := Broken(k, turn.pc.at.place);
    }
  }

  lemma SessionCancelled(st: State, s: SessionId, health: Health) returns (health': Health)
    requires Registry(st) && Is(st, s, health)
    ensures Becomes(st, Cancel(s), s, health, health')
  {
    if health.MidRound? {
      health' := CancelledRound(st, s, health.turn, health.k);
    } else {
      health' := health;
      CancelWakes(st, s, 0);
      forall u | InTools(Apply(st, Cancel(s)), u, s)
        ensures InTools(st, u, s) && (st.turns[u].notified ==> Apply(st, Cancel(s)).turns[u].notified)
      {
        CancelWakes(st, s, u);
      }
    }
  }

  // ----- a step of a turn of the session -----

  /** Turn `u` of session `s` begins or goes on, stands as `turn` then, and has added `more`. */
  ghost predicate Moves(st: State, st': State, s: SessionId, u: TurnId, turn: TurnState, more: seq<Message>)
  {
    && st'.turns == st.turns[u := turn] && turn.session == s && History(st', s) == History(st, s) + more
    && (u in st.turns ==> st.turns[u].session == s)
  }

  ghost predicate OthersInTools(st: State, s: SessionId, u: TurnId)
  {
    exists t :: t != u && InTools(st, t, s)
  }

  lemma OthersStay(st: State, st': State, s: SessionId, u: TurnId, turn: TurnState, more: seq<Message>, v: TurnId)
    requires Moves(st, st', s, u, turn, more)
    ensures v != u ==> (InTools(st', v, s) <==> InTools(st, v, s)) && (InTools(st, v, s) ==> st'.turns[v] == st.turns[v])
  {
  }

  /** It says nothing: it failed, was refused or was cancelled. */
  lemma SaysNothing(st: State, st': State, s: SessionId, u: TurnId, turn: TurnState, health: Health)
    requires Moves(st, st', s, u, turn, []) && Is(st, s, health)
    requires !InTools(st', u, s) && (InTools(st, u, s) ==> st.turns[u].notified)
    ensures Is(st', s, health)
  {
    forall v | v != u
      ensures (InTools(st', v, s) <==> InTools(st, v, s)) && (InTools(st, v, s) ==> st'.turns[v] == st.turns[v])
    {
      OthersStay(st, st', s, u, turn, [], v);
    }
    StaysCalm(st, st', s, health);
  }

  /** It adds a message of its own, which may ask for tools. */
  lemma SaysMessage(st: State, st': State, s: SessionId, u: TurnId, turn: TurnState, m: Message, health: Health)
    returns (health': Health)
    requires Moves(st, st', s, u, turn, [m]) && Is(st, s, health) && !InTools(st, u, s)
    requires m.User? || m.Assistant?
    requires if m.User? || m.calls.None? then !InTools(st', u, s)
             else && InTools(st', u, s) && turn.pc.at.place == 0 && !turn.notified
                  && turn.calls != [] && m.calls == Some(turn.calls)
    ensures Is(st', s, health') && (health'.Broken? <==> health.Broken? || OthersInTools(st, s, u))
  {
    if health.Rested? {
      forall v | v != u ensures !InTools(st', v, s) { OthersStay(st, st', s, u, turn, [m], v); }
      if m.User? || m.calls.None? {
        PlainAnswer(m);
        DisciplinedAppend(History(st, s), [m]);
        health' := Rested;
      } else {
        RoundStarts(History(st, s), m.content, turn.calls);
        health' := MidRound(u, |History(st, s)|);
      }
    } else {
      health' := MessageBreaks(st, st', s, health, m);
    }
  }

  /** It adds the result of the tool it waited for. */
  lemma SaysResult(st: State, st': State, s: SessionId, u: TurnId, turn: TurnState, r: Message, health: Health)
    returns (health': Health)
    requires Moves(st, st', s, u, turn, [r]) && Is(st, s, health) && InTools(st, u, s) && !st.turns[u].notified
    requires var was := st.turns[u];
      && was.pc.at.place < |was.calls| && !turn.notified && turn.calls == was.calls
      && r.ToolResult? && r.id == was.calls[was.pc.at.place].id && r.name == was.calls[was.pc.at.place].name
      && (if was.pc.at.place + 1 < |was.calls| then InTools(st', u, s) && turn.pc.at.place == was.pc.at.place + 1
          else !InTools(st', u, s))
    ensures Is(st', s, health') && (health'.Broken? <==> health.Broken? || OthersInTools(st, s, u))
  {
    health' := health;
    if health.MidRound? {
      var was := st.turns[u];
      forall v | v != u ensures !InTools(st', v, s) { OthersStay(st, st', s, u, turn, [r], v); }
      RoundGoesOn(History(st, s), health.k, was.calls, was.pc.at.place, r);
      if was.pc.at.place + 1 == |was.calls| {
        health' := Rested;
      }
    } else {
      BrokenInside(History(st, s), health.k, health.j, r);
    }
  }

  lemma SessionBegins(st: State, step: Step, s: SessionId, health: Health) returns (health': Health)
    requires Enabled(st, step) && step.Begin? && step.session == s && Is(st, s, health)
    ensures Becomes(st, step, s, health, health')
  {
    var turn, st' := Opened(s in st.sessions, s, step.prompt, step.toolsParse), Apply(st, step);
    assert Moves(st, st', s, step.turn, turn, turn.appended);
    if turn.appended == [] {
      SaysNothing(st, st', s, step.turn, turn, health);
      health' := health;
    } else {
      assert turn.appended == [turn.appended[0]];
      health' := SaysMessage(st, st', s, step.turn, turn, turn.appended[0], health);
    }
    assert Spoils(st, step, s) <==> turn.appended != [] && OthersInTools(st, s, step.turn);
  }

  lemma ResumedSilently(was: TurnState, event: Event)
    requires was.pc.Suspended? && (was.notified || Ready(was, event))
    requires var turn := Resumed(was, event); turn.appended[|was.appended|..] == []
    ensures Resumed(was, event).pc.Over? && (was.pc.at.AtTool? ==> was.notified)
  {
  }

  /** What a turn adds when it goes on and is not silent: the result it waited for, or a message of its own. */
  lemma ResumedSaying(was: TurnState, event: Event, more: seq<Message>)
    requires was.pc.Suspended? && (was.notified || Ready(was, event))
    requires var turn := Resumed(was, event); more == turn.appended[|was.appended|..] && more != []
    ensures var turn := Resumed(was, event);
      && more == [more[0]] && !was.notified && !turn.notified
      && if was.pc.at.AtTool? then
           && was.pc.at.place < |was.calls| && turn.calls == was.calls && turn.pc.Suspended?
           && var call := was.calls[was.pc.at.place];
           && more[0].ToolResult? && more[0].id == call.id && more[0].name == call.name
           && (turn.pc.at.AtTool? <==> was.pc.at.place + 1 < |was.calls|)
           && (turn.pc.at.AtTool? ==> turn.pc.at.place == was.pc.at.place + 1)
         else
           && more[0].Assistant?
           && (if more[0].calls.None? then turn.pc.Over?
               else && turn.pc.Suspended? && turn.pc.at.AtTool? && turn.pc.at.place == 0
                    && turn.calls != [] && more[0].calls == Some(turn.calls))
  {
  }

  lemma SessionResumes(st: State, step: Step, s: SessionId, health: Health) returns (health': Health)
    requires Registry(st) && Enabled(st, step) && step.Resume? && st.turns[step.turn].session == s && Is(st, s, health)
    ensures Becomes(st, step, s, health, health')
  {
    var was, st' := st.turns[step.turn], Apply(st, step);
    var turn := Resumed(was, step.event);
    var more := turn.appended[|was.appended|..];
    assert Moves(st, st', s, step.turn, turn, more);
    if more == [] {
      ResumedSilently(was, step.event);
      SaysNothing(st, st', s, step.turn, turn, health);
      health' := health;
    } else {
      ResumedSaying(was, step.event, more);
      if was.pc.at.AtTool? {
        health' := SaysResult(st, st', s, step.turn, turn, more[0], health);
      } else {
        health' := SaysMessage(st, st', s, step.turn, turn, more[0], health);
      }
    }
    assert Spoils(st, step, s) <==> more != [] && OthersInTools(st, s, step.turn);
  }

  lemma HealthStep(st: State, step: Step, s: SessionId, health: Health) returns (health': Health)
    requires Registry(st) && Enabled(st, step) && Is(st, s, health)
    ensures Becomes(st, step, s, health, health')
  {
    health' := health;
    if !Touches(st, step, s) {
      OtherSession(st, step, s, health);
    } else {
      match step
      case NewSession(_, _) => SessionOpens(st, step, s, health);
      case Begin(_, _, _, _) => health' := SessionBegins(st, step, s, health);
      case Cancel(_) => health' := SessionCancelled(st, s, health);
      case Resume(_, _) => health' := SessionResumes(st, step, s, health);
    }
  }

  // ----- every run -----

  /** Step `i` of the run spoils the history of `s`. */
  ghost predicate SpoilsAt(steps: seq<Step>, i: nat, s: SessionId)
    requires Legal(Empty(), steps) && i < |steps|
  {
    Spoils(At(steps, i), steps[i], s)
  }

  ghost predicate SparedUpTo(steps: seq<Step>, n: nat, s: SessionId)
    requires Legal(Empty(), steps) && n <= |steps|
  {
    forall i: nat | i < n :: !SpoilsAt(steps, i, s)
  }

  ghost predicate Spared(steps: seq<Step>, s: SessionId)
    requires Legal(Empty(), steps)
  {
    SparedUpTo(steps, |steps|, s)
  }

  lemma PrefixSpoils(steps: seq<Step>, n: nat, i: nat, s: SessionId)
    requires Legal(Empty(), steps) && i < n <= |steps| && Legal(Empty(), steps[..n])
    ensures SpoilsAt(steps, i, s) <==> SpoilsAt(steps[..n], i, s)
  {
    assert steps[..n][..i] == steps[..i];
  }

  lemma SparedPrefix(steps: seq<Step>, n: nat, s: SessionId)
    requires n <= |steps| && Legal(Empty(), steps) && Legal(Empty(), steps[..n])
    ensures SparedUpTo(steps, n, s) <==> Spared(steps[..n], s)
  {
    forall i: nat | i < n ensures SpoilsAt(steps, i, s) <==> SpoilsAt(steps[..n], i, s) {
      PrefixSpoils(steps, n, i, s);
    }
  }

  lemma SparedNext(steps: seq<Step>, n: nat, s: SessionId)
    requires n < |steps| && Legal(Empty(), steps)
    ensures SparedUpTo(steps, n + 1, s) <==> SparedUpTo(steps, n, s) && !SpoilsAt(steps, n, s)
  {
  }

  lemma SparedSoFar(steps: seq<Step>, n: nat, s: SessionId)
    requires n == |steps| - 1 && Legal(Empty(), steps) && Legal(Empty(), steps[..n])
    ensures Spared(steps, s) <==> Spared(steps[..n], s) && !SpoilsAt(steps, n, s)
  {
    SparedPrefix(steps, n, s);
    SparedNext(steps, n, s);
  }

  /** In every run, the history is broken exactly if a step spoiled it. */
  lemma {:induction false} HealthRun(steps: seq<Step>, s: SessionId) returns (health: Health)
    requires Legal(Empty(), steps)
    ensures Is(After(Empty(), steps), s, health) && (health.Broken? <==> !Spared(steps, s))
    decreases |steps|
  {
    health := Rested;
    if steps != [] {
      var n := |steps| - 1;
      SplitLast(Empty(), steps);
      SparedSoFar(steps, n, s);
      Reached(Empty(), steps[..n]);
      health := HealthRun(steps[..n], s);
      health := HealthStep(At(steps, n), steps[n], s, health);
    }
  }

  /**
   In every run, overlapping turns included, the history of a session none of whose turns is at a tool is
   disciplined if and only if no cancel of the session ever reached a turn of it that was suspended at a tool,
   and no turn of it ever added to the history while another turn of it was so suspended.
   */
  lemma RunDiscipline(steps: seq<Step>, s: SessionId)
    requires Legal(Empty(), steps) && forall t :: !InTools(After(Empty(), steps), t, s)
    ensures Disciplined(History(After(Empty(), steps), s)) <==> Spared(steps, s)
  {
    var st := After(Empty(), steps);
    var health := HealthRun(steps, s);
    assert !health.MidRound?;
    if health.Broken? {
      BrokenIsUndisciplined(History(st, s), health.k, health.j);
    }
  }

  // ----- one turn at a time -----

  lemma {:induction false} OneAtATimeSplit(st: State, a: seq<Step>, b: seq<Step>, s: SessionId)
    requires Legal(st, a + b) && OneAtATime(st, a + b, s)
    ensures Legal(st, a) && Legal(After(st, a), b) && OneAtATime(st, a, s) && OneAtATime(After(st, a), b, s)
    decreases |a|
  {
    if a == [] {
      assert a + b == b;
    } else {
      assert (a + b)[0] == a[0] && (a + b)[1..] == a[1..] + b;
      OneAtATimeSplit(Apply(st, a[0]), a[1..], b, s);
    }
  }

  /** A session whose suspended turns are all registered has at most one. */
  lemma LoneSpoils(st: State, step: Step, s: SessionId)
    requires Enabled(st, step) && AllReachable(st, s) && (step.Begin? && step.session == s ==> !st.Busy(s))
    ensures Spoils(st, step, s) <==> step == Cancel(s) && exists t :: InTools(st, t, s)
  {
    forall t | InTools(st, t, s) ensures st.Reachable(t) && st.Busy(s) {}
    if Intrudes(st, step, s) {
      IntruderIsOfSession(st, step, s);
      assert false;
    }
  }

  lemma IntruderIsOfSession(st: State, step: Step, s: SessionId)
    requires Enabled(st, step) && (step.Begin? || step.Resume?) && History(Apply(st, step), s) != History(st, s)
    ensures Touches(st, step, s)
  {
  }

  lemma LoneSpoilsAt(steps: seq<Step>, i: nat, s: SessionId)
    requires Legal(Empty(), steps) && OneAtATime(Empty(), steps, s) && i < |steps|
    ensures SpoilsAt(steps, i, s) <==> steps[i] == Cancel(s) && exists t :: InTools(At(steps, i), t, s)
  {
    assert steps == steps[..i] + steps[i..];
    OneAtATimeSplit(Empty(), steps[..i], steps[i..], s);
    StayReachable(Empty(), steps[..i], s);
    LoneSpoils(At(steps, i), steps[i], s);
  }

  /**
   With one turn at a time in the session, whatever happens in the others, what is left is that no cancel of the
   session ever came while a turn of it was suspended at a tool.
   */
  lemma LoneDiscipline(steps: seq<Step>, s: SessionId)
    requires Legal(Empty(), steps) && OneAtATime(Empty(), steps, s)
    requires forall t :: !InTools(After(Empty(), steps), t, s)
    ensures Disciplined(History(After(Empty(), steps), s)) <==>
      forall i: nat, t: TurnId | i < |steps| && steps[i] == Cancel(s) :: !InTools(At(steps, i), t, s)
  {
    RunDiscipline(steps, s);
    forall i: nat | i < |steps|
      ensures SpoilsAt(steps, i, s) <==> steps[i] == Cancel(s) && exists t :: InTools(At(steps, i), t, s)
    {
      LoneSpoilsAt(steps, i, s);
    }
  }

  // ----- runs that leave a history that is not disciplined -----

  /** Turn 1 of session "s" is told to call a tool. */
  function Asking(prompt: seq<Block>, call: ToolCall): seq<Step>
  {
    [NewSession("s", None), Begin(1, "s", prompt, true)] + [Resume(1, Replied(Answer(None, Some([call]))))]
  }

  lemma Asked(prompt: seq<Block>, call: ToolCall) returns (st: State)
    requires PromptText(prompt).Ok?
    ensures Legal(Empty(), Asking(prompt, call)) && st == After(Empty(), Asking(prompt, call))
    ensures "s" in st.sessions
    ensures st.sessions["s"] == [User(PromptText(prompt).value), Assistant(None, Some([call]))]
    ensures st.inFlight == map["s" := 1] && st.turns.Keys == {1}
    ensures var turn := st.turns[1];
      turn.session == "s" && turn.pc == Suspended(AtTool(0, 0)) && turn.calls == [call] && !turn.notified
  {
    var begun := [NewSession("s", None), Begin(1, "s", prompt, true)];
    var ask := Resume(1, Replied(Answer(None, Some([call]))));
    TwoSteps(Empty(), begun[0], begun[1]);
    st := After(Empty(), begun);
    assert st.sessions["s"] == [User(PromptText(prompt).value)];
    assert [ask][1..] == [] && Legal(st, [ask]) && After(st, [ask]) == Apply(st, ask);
    Concat(Empty(), begun, [ask]);
    st := Apply(st, ask);
  }

  lemma OpenCall(h: seq<Message>, call: ToolCall)
    requires |h| >= 2 && h[0].User? && h[1] == Assistant(None, Some([call])) && (|h| > 2 ==> h[2].User?)
    ensures !Disciplined(h)
  {
    assert h[..1] == [h[0]];
    PlainAnswer(h[0]);
    BrokenIsUndisciplined(h, 1, 0);
  }

  /** A cancel that comes during a tool: the call is never answered. */
  lemma CancelLeavesCallOpen(prompt: seq<Block>, call: ToolCall)
    requires PromptText(prompt).Ok?
    ensures var steps := Asking(prompt, call) + [Cancel("s"), Resume(1, Nothing)];
      && Legal(Empty(), steps) && !After(Empty(), steps).Busy("s")
      && !Disciplined(History(After(Empty(), steps), "s"))
  {
    var st := Asked(prompt, call);
    TwoSteps(st, Cancel("s"), Resume(1, Nothing));
    Concat(Empty(), Asking(prompt, call), [Cancel("s"), Resume(1, Nothing)]);
    OpenCall(st.sessions["s"], call);
  }

  /** A second turn begins while the first is at a tool, whose result comes behind the second prompt. */
  lemma PromptInTool(st: State, prompt: seq<Block>, call: ToolCall) returns (st': State)
    requires PromptText(prompt).Ok? && st.turns.Keys == {1} && "s" in st.sessions
    requires var h := st.sessions["s"]; |h| == 2 && h[0].User? && h[1] == Assistant(None, Some([call]))
    requires var turn := st.turns[1];
      turn.session == "s" && turn.pc == Suspended(AtTool(0, 0)) && turn.calls == [call] && !turn.notified
    ensures Legal(st, [Begin(2, "s", prompt, true), Resume(1, Returned(""))])
    ensures st' == After(st, [Begin(2, "s", prompt, true), Resume(1, Returned(""))])
    ensures st'.turns.Keys == {1, 2} && "s" in st'.sessions
    ensures var h := st'.sessions["s"]; |h| == 4 && h[0].User? && h[1] == Assistant(None, Some([call])) && h[2].User?
    ensures forall t | t in st'.turns :: var turn := st'.turns[t];
      turn.session == "s" && turn.pc.Suspended? && turn.pc.at.AtProvider? && !turn.notified
  {
    TwoSteps(st, Begin(2, "s", prompt, true), Resume(1, Returned("")));
    st' := Apply(Apply(st, Begin(2, "s", prompt, true)), Resume(1, Returned("")));
  }

  /** Both turns end. */
  lemma BothAnswer(st: State) returns (st': State)
    requires st.turns.Keys == {1, 2} && "s" in st.sessions
    requires forall t | t in st.turns :: var turn := st.turns[t];
      turn.session == "s" && turn.pc.Suspended? && turn.pc.at.AtProvider? && !turn.notified
    ensures var done := Replied(Answer(None, None));
      Legal(st, [Resume(1, done), Resume(2, done)]) && st' == After(st, [Resume(1, done), Resume(2, done)])
    ensures !st'.Busy("s") && "s" in st'.sessions && st.sessions["s"] <= st'.sessions["s"]
  {
    var done := Replied(Answer(None, None));
    TwoSteps(st, Resume(1, done), Resume(2, done));
    st' := Apply(Apply(st, Resume(1, done)), Resume(2, done));
  }

  /** A prompt that comes during a tool, and no cancel at all: the result lands behind the prompt. */
  lemma PromptSplitsRound(prompt: seq<Block>, call: ToolCall)
    requires PromptText(prompt).Ok?
    ensures var done := Replied(Answer(None, None));
      var steps := Asking(prompt, call) +
                   ([Begin(2, "s", prompt, true), Resume(1, Returned(""))] + [Resume(1, done), Resume(2, done)]);
      && Legal(Empty(), steps) && !After(Empty(), steps).Busy("s")
      && !Disciplined(History(After(Empty(), steps), "s"))
  {
    var done := Replied(Answer(None, None));
    var during, after := [Begin(2, "s", prompt, true), Resume(1, Returned(""))], [Resume(1, done), Resume(2, done)];
    var asked := Asked(prompt, call);
    var split := PromptInTool(asked, prompt, call);
    var st := BothAnswer(split);
    Concat(asked, during, after);
    Concat(Empty(), Asking(prompt, call), during + after);
    OpenCall(st.sessions["s"], call);
  }

  /** In every run, overlapping turns included, histories only grow. */
  lemma {:induction false} HistoriesGrow(st: State, steps: seq<Step>, s: SessionId)
    requires Legal(st, steps) && s in st.sessions
    ensures s in After(st, steps).sessions && st.sessions[s] <= After(st, steps).sessions[s]
    decreases |steps|
  {
    if steps != [] {
      HistoriesGrow(Apply(st, steps[0]), steps[1..], s);
    }
  }
}
