/**
 Rebuilding the jail a sandboxed session lost mid-call.

 Any number of callers that watched a jail die queue on a per-session gate. The gates live in a map,
 and a gate is dropped from it, while still held, when a reference count says nobody else is using it.
 The protocol is modelled as a state machine: one step is what one caller does between two points
 where another may run, and a caller's future may be dropped at every await.
 */
module JailRebuild {

  type SessionId = nat
  type CallerId = nat
  type GateId = nat
  type JailId = nat

  // ----- the gates and the clones of them that callers hold -----

  /**
   `clones[c]` is the gate caller `c` holds a clone of; a caller holds at most one. Gates are numbered
   in the order they were made, and `madeFor[g]` is the session gate `g` was made for.
   */
  datatype GateTable = GateTable(
    gates: map<SessionId, GateId>,
    clones: map<CallerId, GateId>,
    madeFor: seq<SessionId>)

  /** `caller` clones the session's gate, made now if the map holds none. */
  function GateFor(t: GateTable, session: SessionId, caller: CallerId): (t': GateTable)
  {
    if session in t.gates then
      t.(clones := t.clones[caller := t.gates[session]])
    else
      GateTable(t.gates[session := |t.madeFor|], t.clones[caller := |t.madeFor|], t.madeFor + [session])
  }

  function Holders(t: GateTable, gate: GateId): (callers: set<CallerId>)
  {
    set c | c in t.clones.Keys && t.clones[c] == gate
  }

  function Entries(t: GateTable, gate: GateId): (sessions: set<SessionId>)
  {
    set s | s in t.gates.Keys && t.gates[s] == gate
  }

  /** How many references to `gate` exist: the map's and the callers'. */
  function StrongCount(t: GateTable, gate: GateId): (count: nat)
  {
    |Entries(t, gate)| + |Holders(t, gate)|
  }

  /** Drop the session's gate from the map when the count is two. */
  function ForgetUnusedGate(t: GateTable, session: SessionId, gate: GateId): (t': GateTable)
  {
    if StrongCount(t, gate) == 2 then t.(gates := t.gates - {session}) else t
  }

  /** The shared gate map, changed in place under its lock. */
  class Gates {
    var gates: map<SessionId, GateId>
    var clones: map<CallerId, GateId>
    var madeFor: seq<SessionId>

    ghost function Table(): GateTable
      reads this
    {
      GateTable(gates, clones, madeFor)
    }

    constructor ()
      ensures Table() == GateTable(map[], map[], [])
    {
      gates, clones, madeFor := map[], map[], [];
    }

    /** `gate_for`: answers with a clone of the session's one gate. */
    method CloneGate(session: SessionId, caller: CallerId) returns (gate: GateId)
      modifies this
      ensures Table() == GateFor(old(Table()), session, caller)
      ensures session in gates && gates[session] == gate
      ensures old(session in gates) ==> gates == old(gates)
    {
      if session !in gates {
        gates := gates[session := |madeFor|];
        madeFor := madeFor + [session];
      }
      gate := gates[session];
      clones := clones[caller := gate];
    }

    /** `forget_unused_gate`. */
    method Forget(session: SessionId, gate: GateId)
      modifies `gates
      ensures Table() == ForgetUnusedGate(old(Table()), session, gate)
    {
      var inMap := set s | s in gates.Keys && gates[s] == gate;
      var inHand := set c | c in clones.Keys && clones[c] == gate;
      assert inMap == Entries(Table(), gate) && inHand == Holders(Table(), gate);
      if |inMap| + |inHand| == 2 {
        gates := gates - {session};
      }
    }
  }

  // ----- callers -----

  /** How a rebuild ended: with a jail, with a refusal, or by its future being dropped. */
  datatype Outcome = Got(jail: JailId) | Refused | Abandoned

  datatype Pc =
    | Queued                          // awaiting the gate
    | Looking                         // holds the gate, about to read the registry
    | Removing                        // the registry still held the dead jail
    | Stopping(taken: JailId)         // awaiting the stop of the jail it removed
    | Ready                           // about to start a replacement
    | Provisioning(built: JailId)     // awaiting the replacement
    | Inserting(built: JailId)        // about to register the replacement
    | Forgetting(outcome: Outcome)    // about to run `forget_unused_gate`
    | Releasing(outcome: Outcome)     // holds the gate, about to release it
    | Unlocked(outcome: Outcome)      // released the gate, still holds its clone
    | Finished(outcome: Outcome)
  {
    predicate HoldsClone() { !Finished? }

    /** Has fetched its gate and not passed `forget_unused_gate`, nor been dropped. */
    predicate BeforeForget() { !Releasing? && !Unlocked? && !Finished? }

    predicate HoldsLock() { !Queued? && !Unlocked? && !Finished? }

    /** Between acquiring the gate and its forget step. */
    predicate InCritical() { BeforeForget() && HoldsLock() }

    /** Suspended at an await, where the future may be dropped. */
    predicate AtAwait()
    {
      Queued? || Looking? || Removing? || Stopping? || Provisioning? || Inserting?
    }

    /** Decided to replace the dead jail and not started the replacement. */
    predicate Committed() { Removing? || Stopping? || Ready? }

    predicate Building() { Provisioning? || Inserting? }

    predicate Ended() { Forgetting? || Releasing? || Unlocked? || Finished? }
  }

  /** `dead` is the jail the caller's own tool call failed in. */
  datatype Caller = Caller(session: SessionId, dead: JailId, pc: Pc)

  // ----- the whole daemon -----

  /** The jail registry, and what is known of every jail. */
  datatype Jails = Jails(
    registry: map<SessionId, JailId>,
    owner: map<JailId, SessionId>,      // every jail ever started, and its session
    latest: map<SessionId, JailId>,     // the session's most recently started jail
    live: set<JailId>,                  // jails whose runner may be running
    stopping: set<JailId>,              // jails with a stop still running on the blocking pool
    unstoppable: set<JailId>,           // jails whose stop failed
    provisionedFor: seq<JailId>)        // the dead jail behind each replacement started
  {
    /** A jail's runner starts. */
    function Start(session: SessionId, jail: JailId): Jails
    {
      this.(owner := owner[jail := session], latest := latest[session := jail], live := live + {jail})
    }

    function Register(session: SessionId, jail: JailId): Jails
    {
      this.(registry := registry[session := jail])
    }

    /** The session's jail leaves the registry and its stop is handed to the blocking pool. */
    function Unregister(session: SessionId): Jails
      requires session in registry
    {
      this.(registry := registry - {session}, stopping := stopping + {registry[session]})
    }
  }

  datatype State = State(
    table: GateTable,
    locked: map<GateId, CallerId>,
    callers: map<CallerId, Caller>,
    jails: Jails)
  {
    function To(c: CallerId, pc: Pc): State
      requires c in callers
    {
      this.(callers := callers[c := callers[c].(pc := pc)])
    }
  }

  // ----- what happens to jails besides the rebuilds -----

  datatype Event =
    | SessionStart(session: SessionId, jail: JailId)
    | Withdraw(session: SessionId)                    // the session gives its jail up
    | Reregister(session: SessionId, jail: JailId)    // the session is given another jail
    | RunnerDies(jail: JailId)
    | StopTakesEffect(jail: JailId)
    | StopFails(jail: JailId)
  {
    /** Someone else than a rebuild caller changes the jail of a session that has had one. */
    predicate Outside() { Withdraw? || Reregister? }

    predicate Possible(js: Jails)
    {
      match this
      case SessionStart(s, j) => s !in js.latest && s !in js.registry && j !in js.owner
      case Withdraw(s) => s in js.registry
      case Reregister(s, j) => s in js.latest && j !in js.owner
      case RunnerDies(j) => true
      case StopTakesEffect(j) => j in js.stopping
      case StopFails(j) => j in js.stopping
    }

    function Happen(js: Jails): Jails
      requires Possible(js)
    {
      match this
      case SessionStart(s, j) => js.Start(s, j).Register(s, j)
      case Withdraw(s) => js.Unregister(s)
      case Reregister(s, j) => js.Start(s, j).Register(s, j)
      case RunnerDies(j) => js.(live := js.live - {j})
      case StopTakesEffect(j) => js.(live := js.live - {j}, stopping := js.stopping - {j})
      case StopFails(j) => js.(stopping := js.stopping - {j}, unstoppable := js.unstoppable + {j})
    }
  }

  // ----- `rebuild_under_gate`, and being dropped at an await -----

  datatype Move =
    | Look
    | Remove
    | StopAwaited
    | StartProvision(jail: JailId)
    | Provisioned
    | ProvisionFails
    | Insert
    | Abandon
  {
    predicate Possible(js: Jails, me: Caller)
    {
      match this
      case Look => me.pc.Looking?
      case Remove => me.pc.Removing?
      case StopAwaited => me.pc.Stopping? && me.pc.taken !in js.stopping
      case StartProvision(j) => me.pc.Ready? && j !in js.owner
      case Provisioned => me.pc.Provisioning?
      case ProvisionFails => me.pc.Provisioning?
      case Insert => me.pc.Inserting?
      case Abandon => me.pc.AtAwait()
    }

    /** Where the caller goes. */
    function Next(js: Jails, me: Caller): Pc
      requires Possible(js, me)
    {
      match this
      case Look =>
        if me.session !in js.registry then Forgetting(Refused)
        else if js.registry[me.session] != me.dead then Forgetting(Got(js.registry[me.session]))
        else Removing
      case Remove => if me.session in js.registry then Stopping(js.registry[me.session]) else Ready
      case StopAwaited => Ready
      case StartProvision(j) => Provisioning(j)
      case Provisioned => Inserting(me.pc.built)
      case ProvisionFails => Forgetting(Refused)
      case Insert => Forgetting(Got(me.pc.built))
      case Abandon => if me.pc.Queued? then Unlocked(Abandoned) else Releasing(Abandoned)
    }

    /** What it does to the jails. */
    function Effect(js: Jails, me: Caller): Jails
      requires Possible(js, me)
    {
      match this
      case Remove => if me.session in js.registry then js.Unregister(me.session) else js
      case StartProvision(j) => js.Start(me.session, j).(provisionedFor := js.provisionedFor + [me.dead])
      case Insert => js.Register(me.session, me.pc.built)
      case _ => js
    }
  }

  // ----- the steps of the whole daemon -----

  datatype Step =
    | World(event: Event)
    | Arrive(caller: CallerId, session: SessionId, dead: JailId)
    | Acquire(caller: CallerId)
    | Act(caller: CallerId, move: Move)
    | Forget(caller: CallerId)
    | Unlock(caller: CallerId)
    | DropClone(caller: CallerId)

  function Empty(): State
  {
    State(GateTable(map[], map[], []), map[], map[], Jails(map[], map[], map[], {}, {}, {}, []))
  }

  predicate Enabled(st: State, step: Step)
  {
    match step
    case World(event) => event.Possible(st.jails)
    case Arrive(c, s, d) => c !in st.callers && d in st.jails.owner && st.jails.owner[d] == s
    case Acquire(c) =>
      && c in st.callers && st.callers[c].pc.Queued?
      && c in st.table.clones && st.table.clones[c] !in st.locked
    case Act(c, move) => c in st.callers && move.Possible(st.jails, st.callers[c])
    case Forget(c) => c in st.callers && st.callers[c].pc.Forgetting? && c in st.table.clones
    case Unlock(c) => c in st.callers && st.callers[c].pc.Releasing? && c in st.table.clones
    case DropClone(c) => c in st.callers && st.callers[c].pc.Unlocked?
  }

  function Apply(st: State, step: Step): (st': State)
    requires Enabled(st, step)
  {
    match step
    case World(event) => st.(jails := event.Happen(st.jails))
    case Arrive(c, s, d) =>
      st.(table := GateFor(st.table, s, c), callers := st.callers[c := Caller(s, d, Queued)])
    case Acquire(c) => st.To(c, Looking).(locked := st.locked[st.table.clones[c] := c])
    case Act(c, move) =>
      var me := st.callers[c];
      st.To(c, move.Next(st.jails, me)).(jails := move.Effect(st.jails, me))
    case Forget(c) =>
      var me := st.callers[c];
      st.To(c, Releasing(me.pc.outcome)).(table := ForgetUnusedGate(st.table, me.session, st.table.clones[c]))
    case Unlock(c) =>
      st.To(c, Unlocked(st.callers[c].pc.outcome)).(locked := st.locked - {st.table.clones[c]})
    case DropClone(c) =>
      st.To(c, Finished(st.callers[c].pc.outcome)).(table := st.table.(clones := st.table.clones - {c}))
  }

  /** Every step of `steps` is enabled where it is taken, from `st`. */
  predicate Legal(st: State, steps: seq<Step>)
    decreases |steps|
  {
    steps == [] || (Enabled(st, steps[0]) && Legal(Apply(st, steps[0]), steps[1..]))
  }

  function After(st: State, steps: seq<Step>): (st': State)
    requires Legal(st, steps)
    decreases |steps|
  {
    if steps == [] then st else After(Apply(st, steps[0]), steps[1..])
  }

  // ----- the gate invariant -----

  /** What holds of one caller. */
  predicate CallerInv(t: GateTable, locked: map<GateId, CallerId>, c: CallerId, me: Caller)
  {
    && (c in t.clones <==> me.pc.HoldsClone())
    && (c in t.clones ==> t.clones[c] < |t.madeFor| && t.madeFor[t.clones[c]] == me.session)
    // a caller that has fetched a gate and not passed forget holds the gate now in the map
    && (me.pc.BeforeForget() ==> me.session in t.gates && t.gates[me.session] == t.clones[c])
    && (me.pc.HoldsLock() ==> t.clones[c] in locked && locked[t.clones[c]] == c)
  }

  ghost predicate GateInv(st: State)
  {
    var t := st.table;
    && (forall c | c in st.callers :: CallerInv(t, st.locked, c, st.callers[c]))
    && t.clones.Keys <= st.callers.Keys
    && (forall s | s in t.gates :: t.gates[s] < |t.madeFor| && t.madeFor[t.gates[s]] == s)
    && (forall g | g in st.locked :: LockInv(st, g, st.locked[g]))
  }

  /** A lock is held by a caller that holds a clone of that gate. */
  predicate LockInv(st: State, g: GateId, c: CallerId)
  {
    c in st.callers && st.callers[c].pc.HoldsLock() && c in st.table.clones && st.table.clones[c] == g
  }

  /** Moving a caller on without a change of what it holds. */
  predicate SameHold(p: Pc, p': Pc)
  {
    && p'.HoldsClone() == p.HoldsClone()
    && (p'.BeforeForget() ==> p.BeforeForget())
    && p'.HoldsLock() == p.HoldsLock()
  }

  lemma GateInvMove(st: State, st': State, c: CallerId, pc: Pc)
    requires GateInv(st) && c in st.callers && SameHold(st.callers[c].pc, pc)
    requires st'.table == st.table && st'.locked == st.locked && st'.callers == st.To(c, pc).callers
    ensures GateInv(st')
  {
    assert CallerInv(st.table, st.locked, c, st.callers[c]);
    forall g | g in st'.locked ensures LockInv(st', g, st'.locked[g]) {
      assert LockInv(st, g, st.locked[g]);
    }
  }

  lemma GateInvArrive(st: State, c: CallerId, s: SessionId, d: JailId)
    requires GateInv(st) && c !in st.callers
    ensures GateInv(st.(table := GateFor(st.table, s, c), callers := st.callers[c := Caller(s, d, Queued)]))
  {
    var st' := st.(table := GateFor(st.table, s, c), callers := st.callers[c := Caller(s, d, Queued)]);
    forall o | o in st'.callers ensures CallerInv(st'.table, st'.locked, o, st'.callers[o]) {
      if o != c {
        assert CallerInv(st.table, st.locked, o, st.callers[o]);
      }
    }
    forall g | g in st'.locked ensures LockInv(st', g, st'.locked[g]) {
      assert LockInv(st, g, st.locked[g]);
    }
  }

  lemma GateInvAcquire(st: State, c: CallerId)
    requires GateInv(st) && c in st.callers && st.callers[c].pc.Queued?
    requires c in st.table.clones && st.table.clones[c] !in st.locked
    ensures GateInv(st.To(c, Looking).(locked := st.locked[st.table.clones[c] := c]))
  {
    var st' := st.To(c, Looking).(locked := st.locked[st.table.clones[c] := c]);
    forall o | o in st'.callers ensures CallerInv(st'.table, st'.locked, o, st'.callers[o]) {
      assert CallerInv(st.table, st.locked, o, st.callers[o]);
    }
    forall g | g in st'.locked ensures LockInv(st', g, st'.locked[g]) {
      if g in st.locked {
        assert LockInv(st, g, st.locked[g]);
      }
    }
  }

  /** Forgetting a gate takes it from nobody else that still counts on it. */
  lemma CountOfTwo(st: State, c: CallerId)
    requires GateInv(st)
    requires c in st.callers && st.callers[c].pc.BeforeForget()
    ensures StrongCount(st.table, st.table.clones[c]) == 2 <==> Holders(st.table, st.table.clones[c]) == {c}
  {
    var t, g := st.table, st.table.clones[c];
    assert Entries(t, g) == {st.callers[c].session};
    assert c in Holders(t, g);
    if |Holders(t, g)| == 1 {
      var rest := Holders(t, g) - {c};
      assert |rest| == 0;
      assert Holders(t, g) == {c} + rest;
    }
  }

  lemma GateInvForget(st: State, c: CallerId)
    requires GateInv(st) && c in st.callers && st.callers[c].pc.Forgetting? && c in st.table.clones
    ensures GateInv(st.To(c, Releasing(st.callers[c].pc.outcome)).
                    (table := ForgetUnusedGate(st.table, st.callers[c].session, st.table.clones[c])))
  {
    var gate, s := st.table.clones[c], st.callers[c].session;
    var st1 := st.To(c, Releasing(st.callers[c].pc.outcome));
    var st' := st1.(table := ForgetUnusedGate(st.table, s, gate));
    GateInvMove(st, st1, c, Releasing(st.callers[c].pc.outcome));
    CountOfTwo(st, c);
    assert CallerInv(st.table, st.locked, c, st.callers[c]);
    forall o | o in st'.callers ensures CallerInv(st'.table, st'.locked, o, st'.callers[o]) {
      assert CallerInv(st1.table, st1.locked, o, st1.callers[o]);
      assert o in Holders(st.table, gate) <==> o in st.table.clones && st.table.clones[o] == gate;
    }
    forall g | g in st'.locked ensures LockInv(st', g, st'.locked[g]) {
      assert LockInv(st1, g, st1.locked[g]);
    }
  }

  lemma GateInvUnlock(st: State, c: CallerId)
    requires GateInv(st) && c in st.callers && st.callers[c].pc.Releasing? && c in st.table.clones
    ensures GateInv(st.To(c, Unlocked(st.callers[c].pc.outcome)).(locked := st.locked - {st.table.clones[c]}))
  {
    var st' := st.To(c, Unlocked(st.callers[c].pc.outcome)).(locked := st.locked - {st.table.clones[c]});
    assert CallerInv(st.table, st.locked, c, st.callers[c]);
    forall o | o in st'.callers ensures CallerInv(st'.table, st'.locked, o, st'.callers[o]) {
      assert CallerInv(st.table, st.locked, o, st.callers[o]);
    }
    forall g | g in st'.locked ensures LockInv(st', g, st'.locked[g]) {
      assert LockInv(st, g, st.locked[g]);
    }
  }

  lemma GateInvDropClone(st: State, c: CallerId)
    requires GateInv(st) && c in st.callers && st.callers[c].pc.Unlocked?
    ensures GateInv(st.To(c, Finished(st.callers[c].pc.outcome)).
                    (table := st.table.(clones := st.table.clones - {c})))
  {
    var st' := st.To(c, Finished(st.callers[c].pc.outcome)).(table := st.table.(clones := st.table.clones - {c}));
    forall o | o in st'.callers ensures CallerInv(st'.table, st'.locked, o, st'.callers[o]) {
      assert CallerInv(st.table, st.locked, o, st.callers[o]);
    }
    forall g | g in st'.locked ensures LockInv(st', g, st'.locked[g]) {
      assert LockInv(st, g, st.locked[g]);
    }
  }

  lemma MoveHolds(js: Jails, me: Caller, move: Move)
    requires move.Possible(js, me)
    ensures SameHold(me.pc, move.Next(js, me))
  {
  }

  /** Every step keeps the gate invariant. */
  lemma {:induction false} GateInvStep(st: State, step: Step)
    requires GateInv(st) && Enabled(st, step)
    ensures GateInv(Apply(st, step))
  {
    match step
    case World(_) =>
      forall g | g in st.locked ensures LockInv(Apply(st, step), g, st.locked[g]) {
        assert LockInv(st, g, st.locked[g]);
      }
    case Arrive(c, s, d) => GateInvArrive(st, c, s, d);
    case Acquire(c) => GateInvAcquire(st, c);
    case Act(c, move) =>
      MoveHolds(st.jails, st.callers[c], move);
      GateInvMove(st, Apply(st, step), c, move.Next(st.jails, st.callers[c]));
    case Forget(c) => GateInvForget(st, c);
    case Unlock(c) => GateInvUnlock(st, c);
    case DropClone(c) => GateInvDropClone(st, c);
  }

  /** Two callers of one session are never both between acquiring a gate and forgetting it. */
  lemma Exclusive(st: State, c1: CallerId, c2: CallerId)
    requires GateInv(st)
    requires c1 in st.callers && st.callers[c1].pc.InCritical()
    requires c2 in st.callers && st.callers[c2].pc.InCritical()
    requires st.callers[c1].session == st.callers[c2].session
    ensures c1 == c2
  {
    assert CallerInv(st.table, st.locked, c1, st.callers[c1]);
    assert CallerInv(st.table, st.locked, c2, st.callers[c2]);
  }

  /** While a caller is in its critical section, no other caller of its session is. */
  lemma OthersWait(st: State, c: CallerId, o: CallerId)
    requires GateInv(st) && c in st.callers && o in st.callers && o != c
    ensures st.callers[o].session != st.callers[c].session
         || !st.callers[o].pc.InCritical() || !st.callers[c].pc.InCritical()
  {
    if st.callers[o].session == st.callers[c].session
       && st.callers[o].pc.InCritical() && st.callers[c].pc.InCritical() {
      Exclusive(st, c, o);
    }
  }

  // ----- every run -----

  lemma {:induction false} Concat(st: State, a: seq<Step>, b: seq<Step>)
    requires Legal(st, a) && Legal(After(st, a), b)
    ensures Legal(st, a + b) && After(st, a + b) == After(After(st, a), b)
    decreases |a|
  {
    if a == [] {
      assert a + b == b;
    } else {
      assert (a + b)[0] == a[0] && (a + b)[1..] == a[1..] + b;
      Concat(Apply(st, a[0]), a[1..], b);
    }
  }

  lemma TwoSteps(st: State, s1: Step, s2: Step)
    requires Enabled(st, s1) && Enabled(Apply(st, s1), s2)
    ensures Legal(st, [s1, s2]) && After(st, [s1, s2]) == Apply(Apply(st, s1), s2)
  {
    assert [s1, s2][1..] == [s2] && [s2][1..] == [];
    assert Legal(Apply(st, s1), [s2]);
    assert After(Apply(st, s1), [s2]) == Apply(Apply(st, s1), s2);
  }

  lemma FourSteps(st: State, s1: Step, s2: Step, s3: Step, s4: Step)
    requires Enabled(st, s1) && Enabled(Apply(st, s1), s2)
    requires var mid := Apply(Apply(st, s1), s2); Enabled(mid, s3) && Enabled(Apply(mid, s3), s4)
    ensures Legal(st, [s1, s2, s3, s4])
    ensures After(st, [s1, s2, s3, s4]) == Apply(Apply(Apply(Apply(st, s1), s2), s3), s4)
  {
    TwoSteps(st, s1, s2);
    var mid := Apply(Apply(st, s1), s2);
    TwoSteps(mid, s3, s4);
    assert After(mid, [s3, s4]) == Apply(Apply(mid, s3), s4);
    Concat(st, [s1, s2], [s3, s4]);
    assert [s1, s2] + [s3, s4] == [s1, s2, s3, s4];
  }

  lemma {:induction false} GatesHold(st: State, steps: seq<Step>)
    requires GateInv(st) && Legal(st, steps)
    ensures GateInv(After(st, steps))
    decreases |steps|
  {
    if steps != [] {
      GateInvStep(st, steps[0]);
      GatesHold(Apply(st, steps[0]), steps[1..]);
    }
  }

  /** `c2` holds the gate that `c1` queues on. */
  predicate KeptWaitingBy(st: State, c1: CallerId, c2: CallerId)
  {
    c1 in st.table.clones && st.table.clones[c1] in st.locked && st.locked[st.table.clones[c1]] == c2
  }

  /**
   In every run, with callers dropped at any await and gates forgotten and made anew, at most one caller
   of a session is between acquiring its gate and forgetting it; and a caller is kept waiting by a
   caller of its own session only.
   */
  lemma GateIsExclusive(steps: seq<Step>, c1: CallerId, c2: CallerId)
    requires Legal(Empty(), steps)
    ensures var st := After(Empty(), steps);
      c1 in st.callers && c2 in st.callers ==>
        var a, b := st.callers[c1], st.callers[c2];
        && (a.session == b.session && a.pc.InCritical() && b.pc.InCritical() ==> c1 == c2)
        && (a.pc.Queued? && KeptWaitingBy(st, c1, c2) ==> a.session == b.session)
  {
    GatesHold(Empty(), steps);
    var st := After(Empty(), steps);
    if c1 in st.callers && c2 in st.callers {
      assert CallerInv(st.table, st.locked, c1, st.callers[c1]);
      assert CallerInv(st.table, st.locked, c2, st.callers[c2]);
      if c1 in st.table.clones && st.table.clones[c1] in st.locked {
        assert LockInv(st, st.table.clones[c1], st.locked[st.table.clones[c1]]);
      }
    }
  }

  /**
   In every run a count of two, read while the gate is held, is the reader and the map and nobody else:
   the gate is dropped from the map exactly when no other caller, queued or on its way out, holds a clone.
   */
  lemma CountOfTwoIsDecisive(steps: seq<Step>, c: CallerId)
    requires Legal(Empty(), steps)
    requires Enabled(After(Empty(), steps), Forget(c))
    ensures var st := After(Empty(), steps);
      var s, gate := st.callers[c].session, st.table.clones[c];
      && s in st.table.gates && st.table.gates[s] == gate
      && (s !in Apply(st, Forget(c)).table.gates
          <==> forall o | o in st.table.clones && o != c :: st.table.clones[o] != gate)
  {
    GatesHold(Empty(), steps);
    ForgetDecides(After(Empty(), steps), c);
  }

  lemma ForgetDecides(st: State, c: CallerId)
    requires GateInv(st) && Enabled(st, Forget(c))
    ensures var s, gate := st.callers[c].session, st.table.clones[c];
      && s in st.table.gates && st.table.gates[s] == gate
      && (s !in Apply(st, Forget(c)).table.gates
          <==> forall o | o in st.table.clones && o != c :: st.table.clones[o] != gate)
  {
    var gate := st.table.clones[c];
    assert CallerInv(st.table, st.locked, c, st.callers[c]);
    CountOfTwo(st, c);
    assert forall o :: o in Holders(st.table, gate) <==> o in st.table.clones && st.table.clones[o] == gate;
  }
}
