/** When a gate stays in the map, and that no caller is ever stuck. */
module JailGates {
  import opened JailRebuild

  lemma {:induction false} Split(st: State, a: seq<Step>, b: seq<Step>)
    requires Legal(st, a + b)
    ensures Legal(st, a) && Legal(After(st, a), b) && After(st, a + b) == After(After(st, a), b)
    decreases |a|
  {
    if a == [] {
      assert a + b == b;
    } else {
      assert (a + b)[0] == a[0] && (a + b)[1..] == a[1..] + b;
      Split(Apply(st, a[0]), a[1..], b);
    }
  }

  /** The daemon before step `i` of a run. */
  ghost function At(steps: seq<Step>, i: nat): State
    requires Legal(Empty(), steps) && i <= |steps|
  {
    assert steps == steps[..i] + steps[i..];
    Split(Empty(), steps[..i], steps[i..]);
    After(Empty(), steps[..i])
  }

  lemma LastStep(steps: seq<Step>)
    requires steps != [] && Legal(Empty(), steps)
    ensures var n := |steps| - 1;
      && Legal(Empty(), steps[..n]) && Enabled(After(Empty(), steps[..n]), steps[n])
      && After(Empty(), steps) == Apply(After(Empty(), steps[..n]), steps[n])
  {
    var n := |steps| - 1;
    assert steps == steps[..n] + [steps[n]] && [steps[n]][1..] == [];
    Split(Empty(), steps[..n], [steps[n]]);
  }

  // ----- when a gate stays behind -----

  predicate ArrivesAt(step: Step, s: SessionId) { step.Arrive? && step.session == s }

  /** A caller of `s` forgets its gate while nobody else holds a clone of it. */
  predicate ForgetsAlone(st: State, step: Step, s: SessionId)
  {
    && step.Forget? && step.caller in st.callers && st.callers[step.caller].session == s
    && step.caller in st.table.clones && Holders(st.table, st.table.clones[step.caller]) == {step.caller}
  }

  /** Step `j` of the run is that. */
  ghost predicate Drops(steps: seq<Step>, j: nat, s: SessionId)
    requires Legal(Empty(), steps) && j < |steps|
  {
    ForgetsAlone(At(steps, j), steps[j], s)
  }

  /** Step `i` is an arrival at `s`, and nobody forgets the gate of `s` alone after it. */
  ghost predicate LeavesGate(steps: seq<Step>, i: nat, s: SessionId)
    requires Legal(Empty(), steps) && i < |steps|
  {
    ArrivesAt(steps[i], s) && forall j: nat | i < j < |steps| :: !Drops(steps, j, s)
  }

  /** One step's part in it. */
  lemma GateStep(st: State, step: Step, s: SessionId)
    requires GateInv(st) && Enabled(st, step)
    ensures s in Apply(st, step).table.gates <==>
      ArrivesAt(step, s) || (s in st.table.gates && !ForgetsAlone(st, step, s))
  {
    if step.Forget? {
      assert CallerInv(st.table, st.locked, step.caller, st.callers[step.caller]);
      CountOfTwo(st, step.caller);
    }
  }

  lemma DropsSoFar(steps: seq<Step>, n: nat, j: nat, s: SessionId)
    requires Legal(Empty(), steps) && j < n <= |steps| && Legal(Empty(), steps[..n])
    ensures Drops(steps[..n], j, s) <==> Drops(steps, j, s)
  {
    assert steps[..n][..j] == steps[..j];
  }

  lemma LeavesGateSoFar(steps: seq<Step>, n: nat, i: nat, s: SessionId)
    requires Legal(Empty(), steps) && n == |steps| - 1 && i < n && Legal(Empty(), steps[..n])
    ensures LeavesGate(steps, i, s) <==> LeavesGate(steps[..n], i, s) && !Drops(steps, n, s)
  {
    forall j: nat | j < n ensures Drops(steps[..n], j, s) <==> Drops(steps, j, s) { DropsSoFar(steps, n, j, s); }
  }

  /**
   After every run the map holds a gate for a session if and only if somebody arrived at the session and, since
   the last arrival, nobody forgot its gate while holding the only clone of it.
   */
  lemma {:induction false} GateStaysIff(steps: seq<Step>, s: SessionId)
    requires Legal(Empty(), steps)
    ensures s in After(Empty(), steps).table.gates <==> exists i: nat | i < |steps| :: LeavesGate(steps, i, s)
    decreases |steps|
  {
    if steps != [] {
      var n := |steps| - 1;
      var before := steps[..n];
      LastStep(steps);
      GateStaysIff(before, s);
      GatesHold(Empty(), before);
      GateStep(After(Empty(), before), steps[n], s);
      GateStaysStep(steps, n, s);
    }
  }

  lemma LeavesGateNow(steps: seq<Step>, n: nat, s: SessionId)
    requires n == |steps| - 1 && Legal(Empty(), steps)
    ensures LeavesGate(steps, n, s) <==> ArrivesAt(steps[n], s)
  {
  }

  lemma GateStaysStep(steps: seq<Step>, n: nat, s: SessionId)
    requires n == |steps| - 1 && Legal(Empty(), steps) && Legal(Empty(), steps[..n])
    ensures (exists i: nat | i < |steps| :: LeavesGate(steps, i, s)) <==>
      ArrivesAt(steps[n], s) || ((exists i: nat | i < n :: LeavesGate(steps[..n], i, s)) && !Drops(steps, n, s))
  {
    LeavesGateNow(steps, n, s);
    forall i: nat | i < n
      ensures LeavesGate(steps, i, s) <==> LeavesGate(steps[..n], i, s) && !Drops(steps, n, s)
    {
      LeavesGateSoFar(steps, n, i, s);
    }
    if i: nat :| i < n && LeavesGate(steps[..n], i, s) {
      assert LeavesGate(steps, i, s) <==> !Drops(steps, n, s);
    }
  }

  /** A refused call from queueing to releasing, while another caller holds a clone of the gate. */
  function RefusedCall(c: CallerId): seq<Step>
  {
    [Acquire(c), Act(c, Look), Forget(c), Unlock(c)]
  }

  lemma SubsetSize<T>(a: set<T>, b: set<T>)
    requires a <= b
    ensures |a| <= |b|
  {
    assert b == a + (b - a);
  }

  lemma SharedGateStays(t: GateTable, s: SessionId, c: CallerId, o: CallerId)
    requires s in t.gates && c in t.clones && o in t.clones && o != c
    requires t.gates[s] == t.clones[c] == t.clones[o]
    ensures ForgetUnusedGate(t, s, t.gates[s]) == t
  {
    SubsetSize({c, o}, Holders(t, t.gates[s]));
    SubsetSize({s}, Entries(t, t.gates[s]));
  }

  lemma RefusedCallKeepsGate(st: State, c: CallerId, o: CallerId)
    requires c in st.callers && st.callers[c].pc.Queued?
    requires st.callers[c].session !in st.jails.registry && st.callers[c].session in st.table.gates
    requires c in st.table.clones && o in st.table.clones && o != c
    requires st.table.gates[st.callers[c].session] == st.table.clones[c] == st.table.clones[o]
    requires st.table.clones[c] !in st.locked
    ensures Legal(st, RefusedCall(c)) && After(st, RefusedCall(c)) == st.To(c, Unlocked(Refused))
  {
    var locked := st.locked[st.table.clones[c] := c];
    SharedGateStays(st.table, st.callers[c].session, c, o);
    var st2 := Apply(Apply(st, Acquire(c)), Act(c, Look));
    assert st2 == st.To(c, Forgetting(Refused)).(locked := locked);
    assert Apply(st2, Forget(c)) == st.To(c, Releasing(Refused)).(locked := locked);
    assert Apply(Apply(st2, Forget(c)), Unlock(c)) == st.To(c, Unlocked(Refused));
    FourSteps(st, Acquire(c), Act(c, Look), Forget(c), Unlock(c));
  }

  function TwoArrivals(): seq<Step>
  {
    [World(SessionStart(0, 10)), World(Withdraw(0)), Arrive(1, 0, 10), Arrive(2, 0, 10)]
  }

  lemma TwoQueued()
    ensures Legal(Empty(), TwoArrivals())
    ensures var st := After(Empty(), TwoArrivals());
      && st.table == GateTable(map[0 := 0], map[1 := 0, 2 := 0], [0]) && st.locked == map[]
      && st.callers == map[1 := Caller(0, 10, Queued), 2 := Caller(0, 10, Queued)]
      && st.jails.registry == map[]
  {
    FourSteps(Empty(), World(SessionStart(0, 10)), World(Withdraw(0)), Arrive(1, 0, 10), Arrive(2, 0, 10));
  }

  /**
   A gate can outlive its callers with nobody dropped: the last caller to forget it still counts the clone
   of one that has released the gate and not yet let its clone go.
   */
  lemma GateCanOutliveItsCallers(steps: seq<Step>)
    requires steps == TwoArrivals() + RefusedCall(1) + RefusedCall(2) + [DropClone(1), DropClone(2)]
    ensures Legal(Empty(), steps)
    ensures forall c | c in After(Empty(), steps).callers :: After(Empty(), steps).callers[c].pc.Finished?
    ensures 0 in After(Empty(), steps).table.gates
  {
    TwoQueued();
    var st := After(Empty(), TwoArrivals());
    RefusedCallKeepsGate(st, 1, 2);
    Concat(Empty(), TwoArrivals(), RefusedCall(1));
    var st1 := st.To(1, Unlocked(Refused));
    RefusedCallKeepsGate(st1, 2, 1);
    Concat(Empty(), TwoArrivals() + RefusedCall(1), RefusedCall(2));
    var st2 := st1.To(2, Unlocked(Refused));
    TwoSteps(st2, DropClone(1), DropClone(2));
    Concat(Empty(), TwoArrivals() + RefusedCall(1) + RefusedCall(2), [DropClone(1), DropClone(2)]);
  }

  /** A gate can also stay because its one caller was dropped, with nobody forgetting anything. */
  lemma DroppedCallerLeavesGate(steps: seq<Step>)
    requires steps == [World(SessionStart(0, 10)), Arrive(1, 0, 10), Act(1, Abandon), DropClone(1)]
    ensures Legal(Empty(), steps)
    ensures var st := After(Empty(), steps);
      && (forall c | c in st.callers :: st.callers[c].pc.Finished?) && st.table.clones == map[] && 0 in st.table.gates
  {
    FourSteps(Empty(), World(SessionStart(0, 10)), Arrive(1, 0, 10), Act(1, Abandon), DropClone(1));
  }

  // ----- when none does -----

  /** No caller of `s` is dropped, and none still holds a released gate when another of `s` forgets. */
  ghost predicate Tidy(st: State, steps: seq<Step>, s: SessionId)
    requires Legal(st, steps)
    decreases |steps|
  {
    steps == [] || (TidyStep(st, steps[0], s) && Tidy(Apply(st, steps[0]), steps[1..], s))
  }

  ghost predicate TidyStep(st: State, step: Step, s: SessionId)
    requires Enabled(st, step)
  {
    && (step.Act? && st.callers[step.caller].session == s ==> !step.move.Abandon?)
    && (step.Forget? && st.callers[step.caller].session == s ==>
          forall o | o in st.callers && st.callers[o].session == s :: !st.callers[o].pc.Unlocked?)
  }

  /** The gate of `s` is still to be forgotten by somebody. */
  ghost predicate Wanted(st: State, s: SessionId)
  {
    s in st.table.gates ==> exists c | c in st.callers :: st.callers[c].session == s && st.callers[c].pc.BeforeForget()
  }

  /** A caller stays short of forgetting but for its own forget step or its being dropped. */
  lemma StillBefore(st: State, step: Step, c: CallerId)
    requires Enabled(st, step) && c in st.callers && st.callers[c].pc.BeforeForget()
    requires step != Forget(c) && step != Act(c, Abandon)
    ensures var st' := Apply(st, step);
      c in st'.callers && st'.callers[c].session == st.callers[c].session && st'.callers[c].pc.BeforeForget()
  {
  }

  lemma WantedStep(st: State, step: Step, s: SessionId)
    requires GateInv(st) && Wanted(st, s) && Enabled(st, step) && TidyStep(st, step, s)
    ensures Wanted(Apply(st, step), s)
  {
    GateStep(st, step, s);
    if ArrivesAt(step, s) {
      assert Apply(st, step).callers[step.caller] == Caller(s, step.dead, Queued);
    } else if s in Apply(st, step).table.gates {
      var c :| c in st.callers && st.callers[c].session == s && st.callers[c].pc.BeforeForget();
      if step == Forget(c) {
        c := OtherWaits(st, c, s);
      }
      StillBefore(st, step, c);
    }
  }

  /** Whoever else holds a clone of a gate that is held is queued on it or has released it. */
  lemma OtherWaits(st: State, c: CallerId, s: SessionId) returns (o: CallerId)
    requires GateInv(st) && Enabled(st, Forget(c)) && st.callers[c].session == s && !ForgetsAlone(st, Forget(c), s)
    requires forall o | o in st.callers && st.callers[o].session == s :: !st.callers[o].pc.Unlocked?
    ensures o in st.callers && o != c && st.callers[o].session == s && st.callers[o].pc.Queued?
  {
    var gate := st.table.clones[c];
    assert CallerInv(st.table, st.locked, c, st.callers[c]);
    assert c in Holders(st.table, gate);
    o :| o in Holders(st.table, gate) && o != c;
    assert CallerInv(st.table, st.locked, o, st.callers[o]);
  }

  lemma {:induction false} StaysWanted(st: State, steps: seq<Step>, s: SessionId)
    requires GateInv(st) && Wanted(st, s) && Legal(st, steps) && Tidy(st, steps, s)
    ensures Wanted(After(st, steps), s)
    decreases |steps|
  {
    if steps != [] {
      GateInvStep(st, steps[0]);
      WantedStep(st, steps[0], s);
      StaysWanted(Apply(st, steps[0]), steps[1..], s);
    }
  }

  /**
   In every run in which no caller of a session is dropped, and none still holds a released gate when another
   of the session forgets, no gate of the session is left once its callers have finished.
   */
  lemma NoGateIsLeft(steps: seq<Step>, s: SessionId)
    requires Legal(Empty(), steps) && Tidy(Empty(), steps, s)
    requires forall c | c in After(Empty(), steps).callers && After(Empty(), steps).callers[c].session == s ::
      After(Empty(), steps).callers[c].pc.Finished?
    ensures s !in After(Empty(), steps).table.gates
  {
    StaysWanted(Empty(), steps, s);
  }

  // ----- nobody is stuck -----

  /** A step of caller `c` that is not its being dropped. */
  predicate Own(step: Step, c: CallerId)
  {
    match step
    case Acquire(o) => o == c
    case Act(o, move) => o == c && !move.Abandon?
    case Forget(o) => o == c
    case Unlock(o) => o == c
    case DropClone(o) => o == c
    case _ => false
  }

  ghost predicate CanMove(st: State, c: CallerId)
  {
    exists step :: Own(step, c) && Enabled(st, step)
  }

  /** Awaiting a stop that is still running. */
  predicate AwaitsStop(st: State, c: CallerId)
  {
    c in st.callers && st.callers[c].pc.Stopping? && st.callers[c].pc.taken in st.jails.stopping
  }

  lemma {:induction false} Fresh(used: set<JailId>) returns (j: JailId)
    ensures forall u | u in used :: u < j
    decreases |used|
  {
    j := 0;
    if u :| u in used {
      j := Fresh(used - {u});
      assert forall v | v in used :: v == u || v in used - {u};
      j := if j > u then j else u + 1;
    }
  }

  lemma MovesOn(st: State, c: CallerId)
    requires GateInv(st) && c in st.callers && !st.callers[c].pc.Finished? && !AwaitsStop(st, c)
    requires st.callers[c].pc.Queued? ==> st.table.clones[c] !in st.locked
    ensures CanMove(st, c)
  {
    assert CallerInv(st.table, st.locked, c, st.callers[c]);
    var j := Fresh(st.jails.owner.Keys);
    var step := match st.callers[c].pc
      case Queued => Acquire(c)
      case Looking => Act(c, Look)
      case Removing => Act(c, Remove)
      case Stopping(_) => Act(c, StopAwaited)
      case Ready => Act(c, StartProvision(j))
      case Provisioning(_) => Act(c, Provisioned)
      case Inserting(_) => Act(c, Insert)
      case Forgetting(_) => Forget(c)
      case Releasing(_) => Unlock(c)
      case Unlocked(_) => DropClone(c)
      case Finished(_) => DropClone(c);
    assert Own(step, c) && Enabled(st, step);
  }

  /** Whom caller `c` depends on to move: the holder of the gate it queues on, or nobody else. */
  function Mover(st: State, c: CallerId): CallerId
  {
    if c in st.callers && st.callers[c].pc.Queued? && c in st.table.clones && st.table.clones[c] in st.locked
    then st.locked[st.table.clones[c]] else c
  }

  /**
   In every run, a caller that has not finished can move, or a caller of its own session holds its gate and can;
   unless that one awaits a stop that is still running, and then it can move as soon as the stop takes effect.
   */
  lemma NobodyIsStuck(steps: seq<Step>, c: CallerId)
    requires Legal(Empty(), steps)
    requires c in After(Empty(), steps).callers && !After(Empty(), steps).callers[c].pc.Finished?
    ensures var st := After(Empty(), steps);
      var mover := Mover(st, c);
      && mover in st.callers && st.callers[mover].session == st.callers[c].session
      && if AwaitsStop(st, mover) then
           var stop := World(StopTakesEffect(st.callers[mover].pc.taken));
           Enabled(st, stop) && CanMove(Apply(st, stop), mover)
         else CanMove(st, mover)
  {
    GatesHold(Empty(), steps);
    SomebodyMoves(After(Empty(), steps), c);
  }

  lemma SomebodyMoves(st: State, c: CallerId)
    requires GateInv(st) && c in st.callers && !st.callers[c].pc.Finished?
    ensures var mover := Mover(st, c);
      && mover in st.callers && st.callers[mover].session == st.callers[c].session
      && if AwaitsStop(st, mover) then
           var stop := World(StopTakesEffect(st.callers[mover].pc.taken));
           Enabled(st, stop) && CanMove(Apply(st, stop), mover)
         else CanMove(st, mover)
  {
    var mover := Mover(st, c);
    assert CallerInv(st.table, st.locked, c, st.callers[c]);
    if mover != c {
      assert LockInv(st, st.table.clones[c], mover);
      assert CallerInv(st.table, st.locked, mover, st.callers[mover]);
    }
    if AwaitsStop(st, mover) {
      var stop := World(StopTakesEffect(st.callers[mover].pc.taken));
      GateInvStep(st, stop);
      MovesOn(Apply(st, stop), mover);
    } else {
      MovesOn(st, mover);
    }
  }

  /** How many steps a caller has left at most. */
  function StepsLeft(pc: Pc): (n: nat)
    ensures n == 0 <==> pc.Finished?
    ensures n <= 10
  {
    match pc
    case Queued => 10
    case Looking => 9
    case Removing => 8
    case Stopping(_) => 7
    case Ready => 6
    case Provisioning(_) => 5
    case Inserting(_) => 4
    case Forgetting(_) => 3
    case Releasing(_) => 2
    case Unlocked(_) => 1
    case Finished(_) => 0
  }

  /** Every step of a caller, its being dropped included, brings it nearer its end, and no other step moves it. */
  lemma StepsRunOut(st: State, step: Step, c: CallerId)
    requires Enabled(st, step) && c in st.callers
    ensures var st' := Apply(st, step);
      && c in st'.callers
      && (Own(step, c) || step == Act(c, Abandon) ==> StepsLeft(st'.callers[c].pc) < StepsLeft(st.callers[c].pc))
      && (!Own(step, c) && step != Act(c, Abandon) ==> st'.callers[c] == st.callers[c])
  {
  }

  // ----- everybody can finish -----

  /** A step that drops nobody and lets nobody new in; the world's only part is that a stop takes effect. */
  predicate Winds(step: Step)
  {
    match step
    case World(event) => event.StopTakesEffect?
    case Arrive(_, _, _) => false
    case Act(_, move) => !move.Abandon?
    case _ => true
  }

  predicate AllWind(steps: seq<Step>)
  {
    forall step | step in steps :: Winds(step)
  }

  /** Nothing is in the way of caller `c` but a stop that is still running. */
  predicate Free(st: State, c: CallerId)
  {
    && c in st.callers && !st.callers[c].pc.Finished?
    && (st.callers[c].pc.Queued? ==> c in st.table.clones && st.table.clones[c] !in st.locked)
  }

  /** Every caller but `c` is as it was. */
  predicate OthersSame(st: State, st': State, c: CallerId)
  {
    st'.callers.Keys == st.callers.Keys && forall o | o in st.callers && o != c :: st'.callers[o] == st.callers[o]
  }

  /** Caller `c`, and nobody else, is nearer its end. */
  predicate Brings(st: State, st': State, c: CallerId)
    requires c in st.callers
  {
    OthersSame(st, st', c) && StepsLeft(st'.callers[c].pc) < StepsLeft(st.callers[c].pc)
  }

  lemma MoverIsFree(st: State, c: CallerId)
    requires GateInv(st) && c in st.callers && !st.callers[c].pc.Finished?
    ensures Free(st, Mover(st, c))
  {
    var mover := Mover(st, c);
    assert CallerInv(st.table, st.locked, c, st.callers[c]);
    if mover != c {
      assert LockInv(st, st.table.clones[c], mover);
      assert CallerInv(st.table, st.locked, mover, st.callers[mover]);
    }
  }

  /** The stop that a caller awaits, if any, takes effect. */
  lemma StopsFirst(st: State, c: CallerId) returns (steps: seq<Step>, st': State)
    requires GateInv(st) && Free(st, c)
    ensures Legal(st, steps) && st' == After(st, steps) && AllWind(steps) && GateInv(st')
    ensures st'.callers == st.callers && Free(st', c) && !AwaitsStop(st', c)
  {
    steps, st' := [], st;
    if AwaitsStop(st, c) {
      var stop := World(StopTakesEffect(st.callers[c].pc.taken));
      steps, st' := [stop], Apply(st, stop);
      assert [stop][1..] == [];
      GateInvStep(st, stop);
    }
  }

  lemma OwnStep(st: State, step: Step, c: CallerId)
    requires Enabled(st, step) && Own(step, c)
    ensures Winds(step) && c in st.callers && OthersSame(st, Apply(st, step), c)
  {
  }

  lemma NextMove(st: State, c: CallerId) returns (steps: seq<Step>)
    requires GateInv(st) && Free(st, c) && !AwaitsStop(st, c)
    ensures Legal(st, steps) && AllWind(steps) && Brings(st, After(st, steps), c)
  {
    MovesOn(st, c);
    var step :| Own(step, c) && Enabled(st, step);
    OwnStep(st, step, c);
    StepsRunOut(st, step, c);
    steps := [step];
    assert steps[1..] == [] && After(st, steps) == Apply(st, step);
  }

  lemma OneMove(st: State, c: CallerId) returns (steps: seq<Step>)
    requires GateInv(st) && Free(st, c)
    ensures Legal(st, steps) && AllWind(steps) && Brings(st, After(st, steps), c)
  {
    var stops, mid := StopsFirst(st, c);
    var move := NextMove(mid, c);
    Concat(st, stops, move);
    steps := stops + move;
  }

  lemma {:induction false} FinishOne(st: State, c: CallerId) returns (steps: seq<Step>)
    requires GateInv(st) && Free(st, c)
    ensures Legal(st, steps) && AllWind(steps)
    ensures OthersSame(st, After(st, steps), c) && After(st, steps).callers[c].pc.Finished?
    decreases StepsLeft(st.callers[c].pc)
  {
    steps := OneMove(st, c);
    var st' := After(st, steps);
    if !st'.callers[c].pc.Finished? {
      GatesHold(st, steps);
      var more := FinishOne(st', c);
      Concat(st, steps, more);
      steps := steps + more;
    }
  }

  function Unfinished(st: State): set<CallerId>
  {
    set c | c in st.callers && !st.callers[c].pc.Finished?
  }

  lemma {:induction false} FinishAll(st: State) returns (steps: seq<Step>)
    requires GateInv(st)
    ensures Legal(st, steps) && AllWind(steps) && Unfinished(After(st, steps)) == {}
    decreases |Unfinished(st)|
  {
    steps := [];
    if c :| c in Unfinished(st) {
      MoverIsFree(st, c);
      var first := FinishOne(st, Mover(st, c));
      var mid := After(st, first);
      GatesHold(st, first);
      assert Unfinished(mid) == Unfinished(st) - {Mover(st, c)};
      var rest := FinishAll(mid);
      Concat(st, first, rest);
      steps := first + rest;
    }
  }

  /**
   No run is a dead end: whatever was called, dropped or died so far, some continuation that drops nobody, and
   in which the world only lets running stops take effect, ends with every caller finished.
   */
  lemma EverybodyCanFinish(steps: seq<Step>) returns (more: seq<Step>)
    requires Legal(Empty(), steps)
    ensures Legal(Empty(), steps + more) && AllWind(more)
    ensures forall c | c in After(Empty(), steps + more).callers :: After(Empty(), steps + more).callers[c].pc.Finished?
  {
    GatesHold(Empty(), steps);
    more := FinishAll(After(Empty(), steps));
    Concat(Empty(), steps, more);
    assert forall c | c in After(Empty(), steps + more).callers ::
      After(Empty(), steps + more).callers[c].pc.Finished? || c in Unfinished(After(Empty(), steps + more));
  }
}
