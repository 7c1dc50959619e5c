/** What every caller of a rebuild is answered, by what happened in the run. */
module JailAnswers {
  import opened JailRebuild
  import opened JailGates

  // ----- the steps that decide -----

  predicate Registered(st: State, s: SessionId, j: JailId)
  {
    s in st.jails.registry && st.jails.registry[s] == j
  }

  /** At step `i` caller `c` looks and its session has no jail, or its replacement cannot be provisioned. */
  ghost predicate RefusedAt(steps: seq<Step>, i: nat, c: CallerId)
    requires Legal(Empty(), steps) && i < |steps|
  {
    || (&& steps[i] == Act(c, Look) && c in At(steps, i).callers
        && At(steps, i).callers[c].session !in At(steps, i).jails.registry)
    || steps[i] == Act(c, ProvisionFails)
  }

  /** At step `i` caller `c` looks and finds `j` registered, which is not the jail it saw die. */
  ghost predicate FoundAt(steps: seq<Step>, i: nat, c: CallerId, j: JailId)
    requires Legal(Empty(), steps) && i < |steps|
  {
    && steps[i] == Act(c, Look) && c in At(steps, i).callers && j != At(steps, i).callers[c].dead
    && Registered(At(steps, i), At(steps, i).callers[c].session, j)
  }

  /** At step `i` caller `c` inserts, and `j` is registered right after; `c` had started `j` before. */
  ghost predicate InsertedAt(steps: seq<Step>, i: nat, c: CallerId, j: JailId)
    requires Legal(Empty(), steps) && i < |steps|
  {
    && steps[i] == Act(c, Insert) && c in At(steps, i).callers
    && Registered(At(steps, i + 1), At(steps, i).callers[c].session, j)
    && exists m: nat | m < i :: steps[m] == Act(c, StartProvision(j))
  }

  ghost predicate GivenAt(steps: seq<Step>, i: nat, c: CallerId, j: JailId)
    requires Legal(Empty(), steps) && i < |steps|
  {
    FoundAt(steps, i, c, j) || InsertedAt(steps, i, c, j)
  }

  ghost predicate WasRefused(steps: seq<Step>, c: CallerId)
    requires Legal(Empty(), steps)
  {
    exists i: nat | i < |steps| :: RefusedAt(steps, i, c)
  }

  ghost predicate WasGiven(steps: seq<Step>, c: CallerId, j: JailId)
    requires Legal(Empty(), steps)
  {
    exists i: nat | i < |steps| :: GivenAt(steps, i, c, j)
  }

  ghost predicate WasDropped(steps: seq<Step>, c: CallerId)
  {
    exists i: nat | i < |steps| :: steps[i] == Act(c, Abandon)
  }

  // ----- one step -----

  predicate Ends(st: State, c: CallerId, outcome: Outcome)
  {
    c in st.callers && st.callers[c].pc.Ended() && st.callers[c].pc.outcome == outcome
  }

  lemma RefusedStep(st: State, step: Step, c: CallerId)
    requires Enabled(st, step)
    ensures Ends(Apply(st, step), c, Refused) <==>
      || Ends(st, c, Refused) || step == Act(c, ProvisionFails)
      || (step == Act(c, Look) && st.callers[c].session !in st.jails.registry)
  {
  }

  lemma DroppedStep(st: State, step: Step, c: CallerId)
    requires Enabled(st, step)
    ensures Ends(Apply(st, step), c, Abandoned) <==> Ends(st, c, Abandoned) || step == Act(c, Abandon)
  {
  }

  lemma GivenStep(st: State, step: Step, c: CallerId, j: JailId)
    requires Enabled(st, step)
    ensures Ends(Apply(st, step), c, Got(j)) <==>
      || Ends(st, c, Got(j))
      || (step == Act(c, Look) && j != st.callers[c].dead && Registered(st, st.callers[c].session, j))
      || (step == Act(c, Insert) && Registered(Apply(st, step), st.callers[c].session, j))
  {
  }

  lemma BuildingStep(st: State, step: Step, c: CallerId)
    requires Enabled(st, step) && c in Apply(st, step).callers && Apply(st, step).callers[c].pc.Building()
    ensures var built := Apply(st, step).callers[c].pc.built;
      || step == Act(c, StartProvision(built))
      || (c in st.callers && st.callers[c].pc.Building() && st.callers[c].pc.built == built)
  {
  }

  // ----- every run -----

  lemma Prefix(steps: seq<Step>, n: nat, i: nat)
    requires Legal(Empty(), steps) && i <= n <= |steps| && Legal(Empty(), steps[..n])
    ensures At(steps[..n], i) == At(steps, i)
  {
    assert steps[..n][..i] == steps[..i];
  }

  lemma RefusedSoFar(steps: seq<Step>, n: nat, c: CallerId)
    requires n == |steps| - 1 && Legal(Empty(), steps) && Legal(Empty(), steps[..n])
    ensures WasRefused(steps, c) <==> WasRefused(steps[..n], c) || RefusedAt(steps, n, c)
  {
    forall i: nat | i < n ensures RefusedAt(steps, i, c) <==> RefusedAt(steps[..n], i, c) { Prefix(steps, n, i); }
  }

  lemma GivenBefore(steps: seq<Step>, n: nat, i: nat, c: CallerId, j: JailId)
    requires Legal(Empty(), steps) && i < n <= |steps| && Legal(Empty(), steps[..n])
    ensures GivenAt(steps, i, c, j) <==> GivenAt(steps[..n], i, c, j)
  {
    Prefix(steps, n, i);
    Prefix(steps, n, i + 1);
    assert forall m: nat | m < i :: steps[..n][m] == steps[m];
  }

  lemma GivenSoFar(steps: seq<Step>, n: nat, c: CallerId, j: JailId)
    requires n == |steps| - 1 && Legal(Empty(), steps) && Legal(Empty(), steps[..n])
    ensures WasGiven(steps, c, j) <==> WasGiven(steps[..n], c, j) || GivenAt(steps, n, c, j)
  {
    forall i: nat | i < n ensures GivenAt(steps, i, c, j) <==> GivenAt(steps[..n], i, c, j) {
      GivenBefore(steps, n, i, c, j);
    }
  }

  /** A caller that builds a jail started it. */
  lemma {:induction false} BuildsItsOwn(steps: seq<Step>, c: CallerId)
    requires Legal(Empty(), steps)
    requires c in After(Empty(), steps).callers && After(Empty(), steps).callers[c].pc.Building()
    ensures exists m: nat | m < |steps| :: steps[m] == Act(c, StartProvision(After(Empty(), steps).callers[c].pc.built))
    decreases |steps|
  {
    var n := |steps| - 1;
    LastStep(steps);
    BuildingStep(After(Empty(), steps[..n]), steps[n], c);
    var start := Act(c, StartProvision(After(Empty(), steps).callers[c].pc.built));
    if steps[n] != start {
      BuildsItsOwn(steps[..n], c);
      var m: nat :| m < n && steps[..n][m] == start;
      assert steps[m] == start;
    }
  }

  /**
   In every run a caller is refused if and only if it looked while its session had no jail, or its replacement
   could not be provisioned.
   */
  lemma {:induction false} RefusedIff(steps: seq<Step>, c: CallerId)
    requires Legal(Empty(), steps)
    ensures Ends(After(Empty(), steps), c, Refused) <==> WasRefused(steps, c)
    decreases |steps|
  {
    if steps != [] {
      var n := |steps| - 1;
      LastStep(steps);
      RefusedIff(steps[..n], c);
      RefusedSoFar(steps, n, c);
      RefusedStep(At(steps, n), steps[n], c);
    }
  }

  /** In every run a caller is dropped if and only if the run drops it. */
  lemma {:induction false} DroppedIff(steps: seq<Step>, c: CallerId)
    requires Legal(Empty(), steps)
    ensures Ends(After(Empty(), steps), c, Abandoned) <==> WasDropped(steps, c)
    decreases |steps|
  {
    if steps != [] {
      var n := |steps| - 1;
      LastStep(steps);
      DroppedIff(steps[..n], c);
      assert forall i: nat | i < n :: steps[..n][i] == steps[i];
      DroppedStep(At(steps, n), steps[n], c);
    }
  }

  lemma GivenNow(steps: seq<Step>, n: nat, c: CallerId, j: JailId)
    requires n == |steps| - 1 && Legal(Empty(), steps) && Enabled(At(steps, n), steps[n])
    ensures var st := At(steps, n);
      GivenAt(steps, n, c, j) <==>
        || (steps[n] == Act(c, Look) && j != st.callers[c].dead && Registered(st, st.callers[c].session, j))
        || (steps[n] == Act(c, Insert) && Registered(After(Empty(), steps), st.callers[c].session, j))
  {
    LastStep(steps);
    assert steps[..n + 1] == steps;
    if steps[n] == Act(c, Insert) {
      BuildsItsOwn(steps[..n], c);
    }
  }

  /**
   In every run a caller gets jail `j` if and only if it looked while `j`, not the jail it saw die, was
   registered for its session, or it inserted `j`, which it had started itself and which was then registered.
   */
  lemma {:induction false} GivenIff(steps: seq<Step>, c: CallerId, j: JailId)
    requires Legal(Empty(), steps)
    ensures Ends(After(Empty(), steps), c, Got(j)) <==> WasGiven(steps, c, j)
    decreases |steps|
  {
    if steps != [] {
      var n := |steps| - 1;
      LastStep(steps);
      GivenIff(steps[..n], c, j);
      GivenSoFar(steps, n, c, j);
      GivenStep(At(steps, n), steps[n], c, j);
      GivenNow(steps, n, c, j);
    }
  }
}
