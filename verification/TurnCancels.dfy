/** What a cancel does and does not do, over every run of an agent. */
module TurnCancels {
  import opened Basics
  import opened ProviderAgent
  import opened TurnRuns

  /** The agent before step `i` of a run. */
  ghost function At(steps: seq<Step>, i: nat): (st: State)
    requires Legal(Empty(), steps) && i <= |steps|
    ensures i < |steps| ==> Enabled(st, steps[i])
  {
    assert steps == steps[..i] + steps[i..];
    Split(Empty(), steps[..i], steps[i..]);
    assert i < |steps| ==> steps[i..][0] == steps[i];
    After(Empty(), steps[..i])
  }

  /** Step `i` cancels the session of turn `t` while `t` is suspended and registered. */
  ghost predicate Hits(steps: seq<Step>, i: nat, t: TurnId)
    requires Legal(Empty(), steps) && i < |steps|
  {
    At(steps, i).Reachable(t) && steps[i] == Cancel(At(steps, i).turns[t].session)
  }

  ghost predicate WasHit(steps: seq<Step>, t: TurnId)
    requires Legal(Empty(), steps)
  {
    exists i: nat | i < |steps| :: Hits(steps, i, t)
  }

  // ----- a turn that is there stays there -----

  lemma {:induction false} TurnStays(st: State, steps: seq<Step>, t: TurnId)
    requires Legal(st, steps) && t in st.turns
    ensures var st' := After(st, steps);
      && t in st'.turns && st'.turns[t].session == st.turns[t].session
      && (st.turns[t].pc.Over? ==> st'.turns[t] == st.turns[t])
    decreases |steps|
  {
    if steps != [] {
      OneStepStays(st, steps[0], t);
      TurnStays(Apply(st, steps[0]), steps[1..], t);
    }
  }

  lemma OneStepStays(st: State, step: Step, t: TurnId)
    requires Enabled(st, step) && t in st.turns
    ensures var st' := Apply(st, step);
      && t in st'.turns && st'.turns[t].session == st.turns[t].session
      && (st.turns[t].pc.Over? ==> st'.turns[t] == st.turns[t])
      && (st.turns[t].pc.Suspended? && st.turns[t].notified ==>
            st'.turns[t] == st.turns[t] || st'.turns[t] == st.turns[t].(pc := Over(Ok(Cancelled))))
  {
  }

  lemma {:induction false} NotifiedStays(st: State, steps: seq<Step>, t: TurnId)
    requires Legal(st, steps) && t in st.turns && st.turns[t].pc.Suspended? && st.turns[t].notified
    ensures var st' := After(st, steps);
      t in st'.turns && (st'.turns[t] == st.turns[t] || st'.turns[t] == st.turns[t].(pc := Over(Ok(Cancelled))))
    decreases |steps|
  {
    if steps != [] {
      var st' := Apply(st, steps[0]);
      OneStepStays(st, steps[0], t);
      if st'.turns[t].pc.Over? {
        TurnStays(st', steps[1..], t);
      } else {
        NotifiedStays(st', steps[1..], t);
      }
    }
  }

  // ----- the cancels of a run -----

  /**
   In every run, a turn that is suspended and registered when its session is cancelled starts nothing more and
   says nothing more: it has ended as cancelled, or it is ready to resume and does so then, whatever is ready.
   */
  lemma CancelStopsTurn(before: seq<Step>, session: SessionId, after: seq<Step>, t: TurnId)
    requires Legal(Empty(), before + [Cancel(session)] + after)
    requires Legal(Empty(), before)
    requires After(Empty(), before).Reachable(t) && After(Empty(), before).turns[t].session == session
    ensures var was, st := After(Empty(), before).turns[t], After(Empty(), before + [Cancel(session)] + after);
      && t in st.turns && st.turns[t].started == was.started && st.turns[t].appended == was.appended
      && (st.turns[t].pc == Over(Ok(Cancelled)) ||
          (st.turns[t].pc == was.pc && forall event ::
             Enabled(st, Resume(t, event)) && Apply(st, Resume(t, event)).turns[t].pc == Over(Ok(Cancelled))))
  {
    var st := After(Empty(), before);
    Split(Empty(), before + [Cancel(session)], after);
    Split(Empty(), before, [Cancel(session)]);
    assert [Cancel(session)][1..] == [];
    assert After(st, [Cancel(session)]) == Apply(st, Cancel(session));
    NotifiedStays(Apply(st, Cancel(session)), after, t);
  }

  lemma PrefixHits(steps: seq<Step>, i: nat, t: TurnId)
    requires steps != [] && Legal(Empty(), steps) && i < |steps| - 1
    ensures Legal(Empty(), steps[..|steps| - 1])
    ensures Hits(steps, i, t) <==> Hits(steps[..|steps| - 1], i, t)
  {
    SplitLast(Empty(), steps);
    assert steps[..|steps| - 1][..i] == steps[..i];
  }

  /** No step before the turn began hits it. */
  lemma NotHitBefore(steps: seq<Step>, t: TurnId)
    requires Legal(Empty(), steps) && t !in After(Empty(), steps).turns
    ensures !WasHit(steps, t)
  {
    forall i: nat | i < |steps| ensures !Hits(steps, i, t) {
      if t in At(steps, i).turns {
        assert steps == steps[..i] + steps[i..];
        Split(Empty(), steps[..i], steps[i..]);
        TurnStays(At(steps, i), steps[i..], t);
      }
    }
  }

  /** The last step of a run hits a turn, or one before it did. */
  lemma HitsSoFar(steps: seq<Step>, t: TurnId)
    requires steps != [] && Legal(Empty(), steps)
    ensures var before, step := steps[..|steps| - 1], steps[|steps| - 1];
      && Legal(Empty(), before)
      && var st := After(Empty(), before);
      WasHit(steps, t) <==> WasHit(before, t) || (st.Reachable(t) && step == Cancel(st.turns[t].session))
  {
    var n := |steps| - 1;
    SplitLast(Empty(), steps);
    assert At(steps, n) == After(Empty(), steps[..n]);
    forall i: nat | i < n ensures Hits(steps, i, t) <==> Hits(steps[..n], i, t) { PrefixHits(steps, i, t); }
    var st := After(Empty(), steps[..n]);
    assert Hits(steps, n, t) <==> st.Reachable(t) && steps[n] == Cancel(st.turns[t].session);
    if WasHit(steps, t) {
      var i: nat :| i < |steps| && Hits(steps, i, t);
      assert i < n ==> Hits(steps[..n], i, t);
    }
    if WasHit(steps[..n], t) {
      var i: nat :| i < n && Hits(steps[..n], i, t);
      assert Hits(steps, i, t);
    }
  }

  lemma {:induction false} NotifiedIff(steps: seq<Step>, t: TurnId)
    requires Legal(Empty(), steps) && t in After(Empty(), steps).turns
    ensures After(Empty(), steps).turns[t].notified <==> WasHit(steps, t)
    decreases |steps|
  {
    var before, step := steps[..|steps| - 1], steps[|steps| - 1];
    SplitLast(Empty(), steps);
    HitsSoFar(steps, t);
    var st := After(Empty(), before);
    if t in st.turns {
      NotifiedIff(before, t);
      Reached(Empty(), before);
      NotifiedStep(st, step, t);
    } else {
      NotHitBefore(before, t);
      BegunUnnotified(st, step, t);
    }
  }

  lemma BegunUnnotified(st: State, step: Step, t: TurnId)
    requires Enabled(st, step) && t !in st.turns && t in Apply(st, step).turns
    ensures !Apply(st, step).turns[t].notified
  {
  }

  lemma NotifiedStep(st: State, step: Step, t: TurnId)
    requires Registry(st) && Enabled(st, step) && t in st.turns
    ensures t in Apply(st, step).turns
    ensures Apply(st, step).turns[t].notified <==>
      st.turns[t].notified || (st.Reachable(t) && step == Cancel(st.turns[t].session))
  {
  }

  /**
   In every run, a turn that is over ended as cancelled if and only if, between its beginning and its end, its
   own session was cancelled while it was suspended and registered. So neither a cancel before it began, nor
   one with no turn in flight, nor one of another session ever ends a turn.
   */
  lemma CancelledIff(steps: seq<Step>, t: TurnId)
    requires Legal(Empty(), steps) && t in After(Empty(), steps).turns && After(Empty(), steps).turns[t].pc.Over?
    ensures After(Empty(), steps).turns[t].pc.ending == Ok(Cancelled) <==> WasHit(steps, t)
  {
    Reached(Empty(), steps);
    NotifiedIff(steps, t);
  }

  /**
   In every run, a cancel changes no turn of another session and no history; and with no turn of its own
   session suspended it changes nothing at all.
   */
  lemma CancelElsewhere(steps: seq<Step>, session: SessionId)
    requires Legal(Empty(), steps)
    ensures var st := After(Empty(), steps);
      var st' := Apply(st, Cancel(session));
      && st'.sessions == st.sessions && st'.inFlight == st.inFlight && st'.turns.Keys == st.turns.Keys
      && (forall t | t in st.turns && st.turns[t].session != session :: st'.turns[t] == st.turns[t])
      && (!st.Busy(session) ==> st' == st)
  {
    Reached(Empty(), steps);
  }

  // ----- which turn a cancel reaches -----

  /** Another turn of the session of `t` begins, or ends. */
  predicate Displaces(st: State, step: Step, t: TurnId)
    requires Enabled(st, step) && t in st.turns
  {
    || (step.Begin? && step.session == st.turns[t].session)
    || (&& step.Resume? && step.turn != t && st.turns[step.turn].session == st.turns[t].session
        && Resumed(st.turns[step.turn], step.event).pc.Over?)
  }

  /** Step `i` of the run does that to a turn that has begun. */
  ghost predicate Displaced(steps: seq<Step>, i: nat, t: TurnId)
    requires Legal(Empty(), steps) && i < |steps|
  {
    t in At(steps, i).turns && Displaces(At(steps, i), steps[i], t)
  }

  /** A turn that stays suspended stays registered unless it is displaced; and what it lost it never gets back. */
  lemma ReachStep(st: State, step: Step, t: TurnId)
    requires Registry(st) && Enabled(st, step) && t in st.turns
    ensures t in Apply(st, step).turns
    ensures Apply(st, step).turns[t].pc.Suspended? ==>
      (Apply(st, step).Reachable(t) <==> st.Reachable(t) && !Displaces(st, step, t))
  {
  }

  lemma BegunReachable(st: State, step: Step, t: TurnId)
    requires Enabled(st, step) && t !in st.turns && t in Apply(st, step).turns
    ensures Apply(st, step).turns[t].pc.Suspended? ==> Apply(st, step).Reachable(t)
  {
  }

  lemma PrefixDisplaced(steps: seq<Step>, n: nat, i: nat, t: TurnId)
    requires Legal(Empty(), steps) && i < n <= |steps| && Legal(Empty(), steps[..n])
    ensures Displaced(steps, i, t) <==> Displaced(steps[..n], i, t)
  {
    assert steps[..n][..i] == steps[..i];
  }

  /** A turn not there yet was not displaced. */
  lemma NotDisplacedBefore(steps: seq<Step>, i: nat, t: TurnId)
    requires Legal(Empty(), steps) && i < |steps| && t !in After(Empty(), steps).turns
    ensures !Displaced(steps, i, t)
  {
    if t in At(steps, i).turns {
      assert steps == steps[..i] + steps[i..];
      Split(Empty(), steps[..i], steps[i..]);
      TurnStays(At(steps, i), steps[i..], t);
    }
  }

  /** No step of the run displaced `t`. */
  ghost predicate Undisplaced(steps: seq<Step>, t: TurnId)
    requires Legal(Empty(), steps)
  {
    forall i: nat | i < |steps| :: !Displaced(steps, i, t)
  }

  lemma UndisplacedSoFar(steps: seq<Step>, n: nat, t: TurnId)
    requires n == |steps| - 1 && Legal(Empty(), steps) && Legal(Empty(), steps[..n])
    ensures Undisplaced(steps, t) <==> Undisplaced(steps[..n], t) && !Displaced(steps, n, t)
  {
    forall i: nat | i < n ensures Displaced(steps, i, t) <==> Displaced(steps[..n], i, t) {
      PrefixDisplaced(steps, n, i, t);
    }
  }

  /**
   In every run, a suspended turn is the one a cancel of its session reaches if and only if, since it began, no
   other turn of its session began or ended.
   */
  lemma {:induction false} ReachableIff(steps: seq<Step>, t: TurnId)
    requires Legal(Empty(), steps) && t in After(Empty(), steps).turns && After(Empty(), steps).turns[t].pc.Suspended?
    ensures After(Empty(), steps).Reachable(t) <==> Undisplaced(steps, t)
    decreases |steps|
  {
    var n := |steps| - 1;
    var before, st := steps[..n], At(steps, n);
    SplitLast(Empty(), steps);
    UndisplacedSoFar(steps, n, t);
    if t in st.turns {
      OneStepStays(st, steps[n], t);
      ReachableIff(before, t);
      Reached(Empty(), before);
      ReachStep(st, steps[n], t);
    } else {
      BegunReachable(st, steps[n], t);
      forall i: nat | i < n ensures !Displaced(before, i, t) { NotDisplacedBefore(before, i, t); }
    }
  }

  /** Step `i` cancels the session of turn `t`, which is suspended and was not displaced since it began. */
  ghost predicate Stops(steps: seq<Step>, i: nat, t: TurnId)
    requires Legal(Empty(), steps) && i < |steps|
  {
    && t in At(steps, i).turns && At(steps, i).turns[t].pc.Suspended?
    && steps[i] == Cancel(At(steps, i).turns[t].session)
    && forall j: nat | j < i :: !Displaced(steps, j, t)
  }

  lemma StopsIsHit(steps: seq<Step>, i: nat, t: TurnId)
    requires Legal(Empty(), steps) && i < |steps|
    ensures Stops(steps, i, t) <==> Hits(steps, i, t)
  {
    if t in At(steps, i).turns && At(steps, i).turns[t].pc.Suspended? {
      assert steps == steps[..i] + steps[i..];
      Split(Empty(), steps[..i], steps[i..]);
      ReachableIff(steps[..i], t);
      forall j: nat | j < i ensures Displaced(steps, j, t) <==> Displaced(steps[..i], j, t) {
        PrefixDisplaced(steps, i, j, t);
      }
    }
  }

  /**
   In every run, a turn that is over ended as cancelled if and only if its session was cancelled while it was
   suspended and before any other turn of the session had begun or ended since it began.
   */
  lemma CancelledExactly(steps: seq<Step>, t: TurnId)
    requires Legal(Empty(), steps) && t in After(Empty(), steps).turns && After(Empty(), steps).turns[t].pc.Over?
    ensures After(Empty(), steps).turns[t].pc.ending == Ok(Cancelled) <==>
      exists i: nat | i < |steps| :: Stops(steps, i, t)
  {
    CancelledIff(steps, t);
    forall i: nat | i < |steps| ensures Stops(steps, i, t) <==> Hits(steps, i, t) { StopsIsHit(steps, i, t); }
  }

  // ----- one turn at a time -----

  /** No turn begins in session `s` while it has one suspended. */
  ghost predicate OneAtATime(st: State, steps: seq<Step>, s: SessionId)
    requires Legal(st, steps)
    decreases |steps|
  {
    steps == [] ||
    (&& (steps[0].Begin? && steps[0].session == s ==> !st.Busy(s))
     && OneAtATime(Apply(st, steps[0]), steps[1..], s))
  }

  ghost predicate AllReachable(st: State, s: SessionId)
  {
    forall t | t in st.turns && st.turns[t].session == s && st.turns[t].pc.Suspended? :: st.Reachable(t)
  }

  lemma ReachableStep(st: State, step: Step, s: SessionId)
    requires Registry(st) && AllReachable(st, s) && Enabled(st, step)
    requires step.Begin? && step.session == s ==> !st.Busy(s)
    ensures AllReachable(Apply(st, step), s)
  {
    var st' := Apply(st, step);
    forall t | t in st'.turns && st'.turns[t].session == s && st'.turns[t].pc.Suspended? ensures st'.Reachable(t) {
      if t in st.turns {
        OneStepStays(st, step, t);
        ReachStep(st, step, t);
      } else {
        BegunReachable(st, step, t);
      }
    }
  }

  lemma {:induction false} StayReachable(st: State, steps: seq<Step>, s: SessionId)
    requires Registry(st) && AllReachable(st, s) && Legal(st, steps) && OneAtATime(st, steps, s)
    ensures AllReachable(After(st, steps), s)
    decreases |steps|
  {
    if steps != [] {
      ReachableStep(st, steps[0], s);
      RegistryStep(st, steps[0]);
      StayReachable(Apply(st, steps[0]), steps[1..], s);
    }
  }

  /** With one turn at a time in a session, every suspended turn of it is the one a cancel of it reaches. */
  lemma LoneTurnIsReached(steps: seq<Step>, t: TurnId)
    requires Legal(Empty(), steps) && t in After(Empty(), steps).turns
    requires After(Empty(), steps).turns[t].pc.Suspended?
    requires OneAtATime(Empty(), steps, After(Empty(), steps).turns[t].session)
    ensures After(Empty(), steps).Reachable(t)
  {
    StayReachable(Empty(), steps, After(Empty(), steps).turns[t].session);
  }

  // ----- cancels that miss -----

  /** Of two overlapping turns of a session, a cancel reaches the later one only. */
  lemma OverlappedTurnIsMissed(prompt: seq<Block>)
    requires PromptText(prompt).Ok?
    ensures var steps := [NewSession("s", None), Begin(1, "s", prompt, true), Begin(2, "s", prompt, true), Cancel("s")];
      && Legal(Empty(), steps)
      && var turns := After(Empty(), steps).turns;
      && turns.Keys == {1, 2} && turns[1].pc.Suspended? && turns[2].pc.Suspended?
      && !turns[1].notified && turns[2].notified
  {
    FourSteps(Empty(), NewSession("s", None), Begin(1, "s", prompt, true), Begin(2, "s", prompt, true), Cancel("s"));
  }

  /** A prompt that is refused takes the running turn's registration with it: a cancel then reaches nobody. */
  lemma RefusedPromptDisplaces(prompt: seq<Block>)
    requires PromptText(prompt).Ok?
    ensures var steps := [NewSession("s", None), Begin(1, "s", prompt, true), Begin(2, "s", [], true), Cancel("s")];
      && Legal(Empty(), steps)
      && var st := After(Empty(), steps);
      && st.turns.Keys == {1, 2} && st.turns[1].pc.Suspended? && st.turns[2].pc.Over?
      && !st.turns[1].notified && st.inFlight == map[]
  {
    FourSteps(Empty(), NewSession("s", None), Begin(1, "s", prompt, true), Begin(2, "s", [], true), Cancel("s"));
  }
}
