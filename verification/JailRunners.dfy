/** What the rebuilds do to the jails: one replacement per death, and one runner per session. */
module JailRunners {
  import opened Basics
  import opened JailRebuild

  // ----- one replacement per death -----

  predicate JailsOnce(js: Jails)
  {
    && (forall i, j | 0 <= i < j < |js.provisionedFor| :: js.provisionedFor[i] != js.provisionedFor[j])
    && (forall j | j in js.provisionedFor :: j in js.owner)
    && (forall s | s in js.registry ::
          js.registry[s] in js.owner && js.owner[js.registry[s]] == s && js.registry[s] !in js.provisionedFor)
  }

  predicate CallerOnce(js: Jails, me: Caller)
  {
    var registered := if me.session in js.registry then Some(js.registry[me.session]) else None;
    && me.dead in js.owner && js.owner[me.dead] == me.session
    && (me.pc.Committed() ==> me.dead !in js.provisionedFor)
    && (me.pc.Stopping? || me.pc.Ready? ==> registered != Some(me.dead))
    && (me.pc.Building() ==>
          && me.pc.built in js.owner && js.owner[me.pc.built] == me.session && me.pc.built != me.dead
          && me.pc.built !in js.provisionedFor && registered != Some(me.pc.built))
    && (me.pc.Ended() && me.pc.outcome.Got? ==>
          me.pc.outcome.jail in js.owner && js.owner[me.pc.outcome.jail] == me.session
          && me.pc.outcome.jail != me.dead)
  }

  ghost predicate OnceInv(st: State)
  {
    JailsOnce(st.jails) && forall c | c in st.callers :: CallerOnce(st.jails, st.callers[c])
  }

  lemma OnceEvent(js: Jails, event: Event, me: Caller)
    requires JailsOnce(js) && event.Possible(js) && CallerOnce(js, me)
    ensures CallerOnce(event.Happen(js), me)
  {
  }

  lemma JailsOnceEvent(js: Jails, event: Event)
    requires JailsOnce(js) && event.Possible(js)
    ensures JailsOnce(event.Happen(js))
  {
  }

  lemma OnceMove(js: Jails, me: Caller, move: Move)
    requires JailsOnce(js) && CallerOnce(js, me) && move.Possible(js, me)
    ensures JailsOnce(move.Effect(js, me))
    ensures CallerOnce(move.Effect(js, me), me.(pc := move.Next(js, me)))
  {
  }

  /** What a caller's move leaves true of another caller, which is not in the same critical section. */
  lemma OnceBystander(js: Jails, me: Caller, move: Move, other: Caller)
    requires JailsOnce(js) && CallerOnce(js, me) && CallerOnce(js, other) && move.Possible(js, me)
    requires other.session != me.session || !other.pc.InCritical() || !me.pc.InCritical()
    ensures CallerOnce(move.Effect(js, me), other)
  {
  }

  lemma OnceInvEvent(st: State, event: Event)
    requires OnceInv(st) && event.Possible(st.jails)
    ensures OnceInv(Apply(st, World(event)))
  {
    JailsOnceEvent(st.jails, event);
    forall o | o in st.callers ensures CallerOnce(event.Happen(st.jails), st.callers[o]) {
      OnceEvent(st.jails, event, st.callers[o]);
    }
  }

  lemma OnceInvAct(st: State, c: CallerId, move: Move)
    requires GateInv(st) && OnceInv(st) && Enabled(st, Act(c, move))
    ensures OnceInv(Apply(st, Act(c, move)))
  {
    var st', me := Apply(st, Act(c, move)), st.callers[c];
    OnceMove(st.jails, me, move);
    forall o | o in st.callers ensures CallerOnce(st'.jails, st'.callers[o]) {
      if o != c {
        OthersWait(st, c, o);
        OnceBystander(st.jails, me, move, st.callers[o]);
      }
    }
  }

  /** A step on the gates changes no jail and no decision about one. */
  lemma OnceInvQuiet(st: State, step: Step)
    requires OnceInv(st) && Enabled(st, step) && !step.World? && !step.Act?
    ensures OnceInv(Apply(st, step))
  {
    var st' := Apply(st, step);
    forall o | o in st'.callers ensures CallerOnce(st.jails, st'.callers[o]) {
      if o in st.callers {
        assert CallerOnce(st.jails, st.callers[o]);
      }
    }
  }

  lemma OnceInvStep(st: State, step: Step)
    requires GateInv(st) && OnceInv(st) && Enabled(st, step)
    ensures OnceInv(Apply(st, step))
  {
    match step
    case World(event) => OnceInvEvent(st, event);
    case Act(c, move) => OnceInvAct(st, c, move);
    case _ => OnceInvQuiet(st, step);
  }

  // ----- one runner per session -----

  /** Only the latest jail of `s` may be running, but for one whose stop failed. */
  predicate JailsAlone(js: Jails, s: SessionId)
  {
    && (forall j | j in js.owner && js.owner[j] == s ::
          s in js.latest && (j in js.live ==> j == js.latest[s] || j in js.unstoppable))
    && (s in js.latest ==> js.latest[s] in js.owner && js.owner[js.latest[s]] == s)
    && (s in js.registry ==> s in js.latest && js.registry[s] == js.latest[s])
  }

  predicate CallerAlone(js: Jails, me: Caller)
  {
    && me.session in js.latest
    && (me.pc.Removing? ==> me.session in js.registry)
    && (me.pc.Stopping? || me.pc.Ready? || me.pc.Building() ==> me.session !in js.registry)
    && var last := js.latest[me.session];
    && (me.pc.Stopping? ==> me.pc.taken == last)
    && (me.pc.Ready? || (me.pc.Stopping? && last !in js.stopping) ==> last !in js.live || last in js.unstoppable)
    && (me.pc.Building() ==> me.pc.built == last)
  }

  ghost predicate AloneInv(st: State, s: SessionId)
  {
    JailsAlone(st.jails, s)
    && forall c | c in st.callers && st.callers[c].session == s :: CallerAlone(st.jails, st.callers[c])
  }

  /** `s` is given another jail, or its jail is withdrawn between a caller's look and its removal. */
  ghost predicate Disturbs(st: State, step: Step, s: SessionId)
  {
    && step.World? && step.event.Outside() && step.event.session == s
    && (step.event.Withdraw? ==> exists c | c in st.callers :: st.callers[c].session == s && st.callers[c].pc.Removing?)
  }

  lemma AloneEvent(js: Jails, event: Event, me: Caller)
    requires JailsAlone(js, me.session) && event.Possible(js) && CallerAlone(js, me)
    requires event.Outside() && event.session == me.session ==> event.Withdraw? && !me.pc.Removing?
    ensures CallerAlone(event.Happen(js), me)
  {
  }

  lemma JailsAloneEvent(js: Jails, event: Event, s: SessionId)
    requires JailsAlone(js, s) && event.Possible(js) && (event.Reregister? ==> event.session != s)
    ensures JailsAlone(event.Happen(js), s)
  {
  }

  lemma AloneMove(js: Jails, me: Caller, move: Move)
    requires JailsAlone(js, me.session) && CallerAlone(js, me) && move.Possible(js, me)
    ensures JailsAlone(move.Effect(js, me), me.session)
    ensures CallerAlone(move.Effect(js, me), me.(pc := move.Next(js, me)))
  {
  }

  /** A caller of another session leaves the session's jails alone. */
  lemma AloneElsewhere(js: Jails, me: Caller, move: Move, s: SessionId)
    requires JailsAlone(js, s) && move.Possible(js, me) && me.session != s
    ensures JailsAlone(move.Effect(js, me), s)
  {
  }

  lemma AloneBystander(js: Jails, me: Caller, move: Move, other: Caller)
    requires JailsAlone(js, other.session) && CallerAlone(js, other) && move.Possible(js, me)
    requires other.session == me.session ==> CallerAlone(js, me)
    requires other.session != me.session || !other.pc.InCritical() || !me.pc.InCritical()
    ensures CallerAlone(move.Effect(js, me), other)
  {
  }

  lemma AloneInvEvent(st: State, event: Event, s: SessionId)
    requires AloneInv(st, s) && event.Possible(st.jails) && !Disturbs(st, World(event), s)
    ensures AloneInv(Apply(st, World(event)), s)
  {
    JailsAloneEvent(st.jails, event, s);
    forall o | o in st.callers && st.callers[o].session == s ensures CallerAlone(event.Happen(st.jails), st.callers[o]) {
      AloneEvent(st.jails, event, st.callers[o]);
    }
  }

  lemma AloneInvAct(st: State, c: CallerId, move: Move, s: SessionId)
    requires GateInv(st) && AloneInv(st, s) && Enabled(st, Act(c, move))
    ensures AloneInv(Apply(st, Act(c, move)), s)
  {
    var st', me := Apply(st, Act(c, move)), st.callers[c];
    if me.session == s {
      AloneMove(st.jails, me, move);
    } else {
      AloneElsewhere(st.jails, me, move, s);
    }
    forall o | o in st.callers && st.callers[o].session == s ensures CallerAlone(st'.jails, st'.callers[o]) {
      if o != c {
        OthersWait(st, c, o);
        AloneBystander(st.jails, me, move, st.callers[o]);
      }
    }
  }

  /** A step on the gates changes no jail and no decision about one. */
  lemma AloneInvQuiet(st: State, step: Step, s: SessionId)
    requires AloneInv(st, s) && Enabled(st, step) && !step.World? && !step.Act?
    ensures AloneInv(Apply(st, step), s)
  {
    var st' := Apply(st, step);
    forall o | o in st'.callers && st'.callers[o].session == s ensures CallerAlone(st.jails, st'.callers[o]) {
      if o in st.callers {
        assert st.callers[o].session == s ==> CallerAlone(st.jails, st.callers[o]);
      }
    }
  }

  lemma AloneInvStep(st: State, step: Step, s: SessionId)
    requires GateInv(st) && AloneInv(st, s) && Enabled(st, step) && !Disturbs(st, step, s)
    ensures AloneInv(Apply(st, step), s)
  {
    match step
    case World(event) => AloneInvEvent(st, event, s);
    case Act(c, move) => AloneInvAct(st, c, move, s);
    case _ => AloneInvQuiet(st, step, s);
  }

  // ----- every run -----

  lemma {:induction false} Reachable(st: State, steps: seq<Step>)
    requires GateInv(st) && OnceInv(st) && Legal(st, steps)
    ensures GateInv(After(st, steps)) && OnceInv(After(st, steps))
    decreases |steps|
  {
    if steps != [] {
      GateInvStep(st, steps[0]);
      OnceInvStep(st, steps[0]);
      Reachable(Apply(st, steps[0]), steps[1..]);
    }
  }

  /** The run holds a step that disturbs `s`. */
  ghost predicate Disturbed(st: State, steps: seq<Step>, s: SessionId)
    requires Legal(st, steps)
    decreases |steps|
  {
    steps != [] && (Disturbs(st, steps[0], s) || Disturbed(Apply(st, steps[0]), steps[1..], s))
  }

  lemma {:induction false} ReachableUndisturbed(st: State, steps: seq<Step>, s: SessionId)
    requires GateInv(st) && AloneInv(st, s) && Legal(st, steps) && !Disturbed(st, steps, s)
    ensures AloneInv(After(st, steps), s)
    decreases |steps|
  {
    if steps != [] {
      GateInvStep(st, steps[0]);
      AloneInvStep(st, steps[0], s);
      ReachableUndisturbed(Apply(st, steps[0]), steps[1..], s);
    }
  }

  /** In every run, withdrawals included, no jail's death starts two replacements. */
  lemma OneReplacementPerDeath(steps: seq<Step>, i: nat, j: nat)
    requires Legal(Empty(), steps)
    ensures var started := After(Empty(), steps).jails.provisionedFor;
      i < j < |started| ==> started[i] != started[j]
  {
    Reachable(Empty(), steps);
  }

  /** In every run, a caller that succeeds gets a jail of its own session, and not the one it saw die. */
  lemma SuccessIsAnotherJail(steps: seq<Step>, c: CallerId)
    requires Legal(Empty(), steps)
    ensures var st := After(Empty(), steps);
      c in st.callers && st.callers[c].pc.Ended() && st.callers[c].pc.outcome.Got? ==>
        var jail := st.callers[c].pc.outcome.jail;
        jail != st.callers[c].dead && jail in st.jails.owner && st.jails.owner[jail] == st.callers[c].session
  {
    Reachable(Empty(), steps);
    var st := After(Empty(), steps);
    if c in st.callers {
      assert CallerOnce(st.jails, st.callers[c]);
    }
  }

  /**
   In every run, whatever happens to other sessions, two runners of one session are live, neither of whose
   stops failed, only if the session was given another jail from outside, or its jail was withdrawn between
   a caller's look at the registry and its removal.
   */
  lemma NoTwoRunners(steps: seq<Step>, a: JailId, b: JailId)
    requires Legal(Empty(), steps)
    ensures var js := After(Empty(), steps).jails;
      && a in js.live && b in js.live && a != b && a !in js.unstoppable && b !in js.unstoppable
      && a in js.owner && b in js.owner && js.owner[a] == js.owner[b]
      ==> Disturbed(Empty(), steps, js.owner[a])
  {
    var js := After(Empty(), steps).jails;
    if a in js.owner && !Disturbed(Empty(), steps, js.owner[a]) {
      ReachableUndisturbed(Empty(), steps, js.owner[a]);
    }
  }

  /** A withdrawal between the registry read and the removal does leave two runners of one session live. */
  lemma WithdrawalCanOverlapRunners(steps: seq<Step>)
    requires steps == [World(SessionStart(0, 10)), Arrive(1, 0, 10), Acquire(1), Act(1, Look)]
                      + [World(Withdraw(0)), Act(1, Remove)] + [Act(1, StartProvision(11))]
    ensures Legal(Empty(), steps)
    ensures After(Empty(), steps).jails.live == {10, 11} && After(Empty(), steps).jails.unstoppable == {}
    ensures After(Empty(), steps).jails.owner == map[10 := 0, 11 := 0]
  {
    var a := [World(SessionStart(0, 10)), Arrive(1, 0, 10), Acquire(1), Act(1, Look)];
    var b := [World(Withdraw(0)), Act(1, Remove)];
    var c := [Act(1, StartProvision(11))];
    LookedOnce();
    WithdrawnThenRemoved(After(Empty(), a));
    Concat(Empty(), a, b);
    ProvisionedBesideLive(After(Empty(), a + b));
    Concat(Empty(), a + b, c);
  }

  lemma WithdrawnThenRemoved(st: State)
    requires st.callers == map[1 := Caller(0, 10, Removing)]
    requires st.jails == Jails(map[0 := 10], map[10 := 0], map[0 := 10], {10}, {}, {}, [])
    ensures var b := [World(Withdraw(0)), Act(1, Remove)];
      && Legal(st, b)
      && var st' := After(st, b);
      && st'.callers == map[1 := Caller(0, 10, Ready)]
      && st'.jails == Jails(map[], map[10 := 0], map[0 := 10], {10}, {10}, {}, [])
  {
    TwoSteps(st, World(Withdraw(0)), Act(1, Remove));
    var st' := Apply(Apply(st, World(Withdraw(0))), Act(1, Remove));
    assert st'.jails.registry == map[] && st'.jails.stopping == {10};
  }

  lemma ProvisionedBesideLive(st: State)
    requires st.callers == map[1 := Caller(0, 10, Ready)]
    requires st.jails == Jails(map[], map[10 := 0], map[0 := 10], {10}, {10}, {}, [])
    ensures var c := [Act(1, StartProvision(11))];
      && Legal(st, c)
      && var st' := After(st, c);
      && st'.jails.live == {10, 11} && st'.jails.unstoppable == {} && st'.jails.owner == map[10 := 0, 11 := 0]
  {
    var c := [Act(1, StartProvision(11))];
    assert c[1..] == [] && After(st, c) == Apply(st, c[0]);
  }

  lemma LookedOnce()
    ensures var a := [World(SessionStart(0, 10)), Arrive(1, 0, 10), Acquire(1), Act(1, Look)];
      && Legal(Empty(), a)
      && var st := After(Empty(), a);
      && st.callers == map[1 := Caller(0, 10, Removing)]
      && st.jails == Jails(map[0 := 10], map[10 := 0], map[0 := 10], {10}, {}, {}, [])
  {
    FourSteps(Empty(), World(SessionStart(0, 10)), Arrive(1, 0, 10), Acquire(1), Act(1, Look));
  }
}
