/**
 How a cancelled start gets its clone stopped. The handle of the clone sits in a shared slot; the
 starter stores it and then looks for a cancel, the watcher waits for the cancel and then takes the
 handle, and either may find the slot empty. Every interleaving of the two, of the cancel signal and of
 the stopper being dropped is a run of the state machine below.
 */
module CloneStopper {
  import opened Basics

  /** `started`: nothing yet, handle stored, cancel seen, handle taken, finished. */
  datatype Starter = Idle | Stored | Taking | Stopping | Started

  /** The watcher task: waiting, told to stop the clone, handle taken, finished, or aborted while waiting. */
  datatype Watcher = Waiting | Told | WatcherStopping | Watched | Aborted

  datatype State = State(
    cancelled: bool,
    held: bool,         // the slot holds the handle
    starter: Starter,
    watcher: Watcher,
    saw: bool,          // the starter's look found the cancel
    dropped: bool,
    stops: nat)         // how often the clone was stopped

  datatype Step =
    | Cancel
    | StoreHandle | LookForCancel | StarterTakes | StarterStops
    | WatcherWakes | WatcherTakes | WatcherStops
    | DropStopper

  function Init(): State { State(false, false, Idle, Waiting, false, false, 0) }

  predicate Enabled(st: State, step: Step)
  {
    match step
    case Cancel => true
    case StoreHandle => st.starter.Idle? && !st.dropped
    case LookForCancel => st.starter.Stored?
    case StarterTakes => st.starter.Taking?
    case StarterStops => st.starter.Stopping?
    case WatcherWakes => st.watcher.Waiting? && st.cancelled
    case WatcherTakes => st.watcher.Told?
    case WatcherStops => st.watcher.WatcherStopping?
    // `started` borrows the stopper, so it is not dropped while that runs
    case DropStopper => !st.dropped && (st.starter.Idle? || st.starter.Started?)
  }

  function Apply(st: State, step: Step): (st': State)
  {
    match step
    case Cancel => st.(cancelled := true)
    case StoreHandle => st.(held := true, starter := Stored)
    case LookForCancel => st.(starter := if st.cancelled then Taking else Started, saw := st.cancelled)
    case StarterTakes => st.(held := false, starter := if st.held then Stopping else Started)
    case StarterStops => st.(starter := Started, stops := st.stops + 1)
    case WatcherWakes => st.(watcher := Told)
    case WatcherTakes => st.(held := false, watcher := if st.held then WatcherStopping else Watched)
    case WatcherStops => st.(watcher := Watched, stops := st.stops + 1)
    // a stop already handed to the blocking pool runs on; only a waiting watcher is aborted
    case DropStopper => st.(dropped := true, watcher := if st.watcher.Waiting? then Aborted else st.watcher)
  }

  predicate Legal(st: State, steps: seq<Step>)
    decreases |steps|
  {
    steps == [] || (Enabled(st, steps[0]) && Legal(Apply(st, steps[0]), steps[1..]))
  }

  function After(st: State, steps: seq<Step>): (st': State)
    decreases |steps|
  {
    if steps == [] then st else After(Apply(st, steps[0]), steps[1..])
  }

  function One(b: bool): nat { if b then 1 else 0 }

  predicate Inv(st: State)
  {
    // the one handle is in the slot, in somebody's hands, or used
    && One(st.held) + One(st.starter.Stopping?) + One(st.watcher.WatcherStopping?) + st.stops == One(!st.starter.Idle?)
    // nobody is told to stop without a cancel
    && (st.starter.Taking? || st.starter.Stopping? ==> st.saw)
    && (st.saw ==> st.cancelled)
    && (!st.watcher.Waiting? && !st.watcher.Aborted? ==> st.cancelled)
    && (st.stops > 0 ==> st.cancelled)
    && (st.starter.Idle? || st.starter.Stored? ==> !st.saw)
    // a handle left in the slot is one somebody will still look for, or nobody was asked to
    && (st.held && st.watcher.Watched? ==> st.starter.Stored? || st.starter.Taking?)
    && (st.held && st.saw ==> st.starter.Taking?)
    && (st.watcher.Waiting? || st.watcher.Aborted? ==>
          (st.starter.Stored? || (st.starter.Started? && !st.saw) ==> st.held))
  }

  predicate OfStarter(step: Step)
  {
    step.StoreHandle? || step.LookForCancel? || step.StarterTakes? || step.StarterStops?
  }

  lemma StarterStep(st: State, step: Step)
    requires Inv(st) && Enabled(st, step) && OfStarter(step)
    ensures Inv(Apply(st, step))
  {
  }

  lemma OtherStep(st: State, step: Step)
    requires Inv(st) && Enabled(st, step) && !OfStarter(step)
    ensures Inv(Apply(st, step))
  {
  }

  lemma InvStep(st: State, step: Step)
    requires Inv(st) && Enabled(st, step)
    ensures Inv(Apply(st, step))
  {
    if OfStarter(step) {
      StarterStep(st, step);
    } else {
      OtherStep(st, step);
    }
  }

  lemma {:induction false} Reachable(st: State, steps: seq<Step>)
    requires Inv(st) && Legal(st, steps)
    ensures Inv(After(st, steps))
    decreases |steps|
  {
    if steps != [] {
      InvStep(st, steps[0]);
      Reachable(Apply(st, steps[0]), steps[1..]);
    }
  }

  // ----- what the steps of a run say -----

  /** At step `j` `started` looks for the cancel, which was there before the steps or came before that one. */
  predicate LooksAt(cancelled: bool, steps: seq<Step>, j: nat)
  {
    j < |steps| && steps[j] == LookForCancel && (cancelled || Cancel in steps[..j])
  }

  ghost predicate LooksAfterCancel(cancelled: bool, steps: seq<Step>)
  {
    exists j: nat :: LooksAt(cancelled, steps, j)
  }

  lemma LooksNext(cancelled: bool, steps: seq<Step>)
    requires steps != []
    ensures LooksAfterCancel(cancelled, steps) <==>
      (steps[0] == LookForCancel && cancelled) || LooksAfterCancel(cancelled || steps[0] == Cancel, steps[1..])
  {
    var now := cancelled || steps[0] == Cancel;
    assert LooksAt(cancelled, steps, 0) <==> steps[0] == LookForCancel && cancelled;
    forall j: nat ensures LooksAt(cancelled, steps, j + 1) <==> LooksAt(now, steps[1..], j) {
      if j + 1 < |steps| {
        assert steps[..j + 1] == [steps[0]] + steps[1..][..j];
      }
    }
    if j: nat :| LooksAt(cancelled, steps, j) {
      assert j > 0 ==> LooksAt(now, steps[1..], j - 1);
    }
    if j: nat :| LooksAt(now, steps[1..], j) {
      assert LooksAt(cancelled, steps, j + 1);
    }
  }

  lemma OneHappens(st: State, step: Step)
    requires Inv(st) && Enabled(st, step)
    ensures var st' := Apply(st, step);
      && (st'.cancelled <==> st.cancelled || step == Cancel)
      && (st'.saw <==> st.saw || (step == LookForCancel && st.cancelled))
      && (st'.watcher.Waiting? || st'.watcher.Aborted? <==>
            (st.watcher.Waiting? || st.watcher.Aborted?) && step != WatcherWakes)
  {
  }

  lemma {:induction false} WhatHappened(st: State, steps: seq<Step>)
    requires Inv(st) && Legal(st, steps)
    ensures var st' := After(st, steps);
      && (st'.cancelled <==> st.cancelled || Cancel in steps)
      && (st'.saw <==> st.saw || LooksAfterCancel(st.cancelled, steps))
      && (st'.watcher.Waiting? || st'.watcher.Aborted? <==>
            (st.watcher.Waiting? || st.watcher.Aborted?) && WatcherWakes !in steps)
    decreases |steps|
  {
    if steps != [] {
      assert steps == [steps[0]] + steps[1..];
      OneHappens(st, steps[0]);
      InvStep(st, steps[0]);
      LooksNext(st.cancelled, steps);
      WhatHappened(Apply(st, steps[0]), steps[1..]);
    }
  }

  /**
   In every run the clone is stopped at most once and never without a cancel; and once `started` has
   returned and the watcher has finished or been aborted, it was stopped exactly when the watcher woke to the
   cancel or `started` looked for it after it came.
   */
  lemma StoppedAtMostOnce(steps: seq<Step>)
    requires Legal(Init(), steps)
    ensures var st := After(Init(), steps);
      && st.stops <= 1 && (st.stops > 0 ==> Cancel in steps)
      && (st.starter.Started? && (st.watcher.Watched? || st.watcher.Aborted?) ==>
            (st.stops == 1 <==> WatcherWakes in steps || LooksAfterCancel(false, steps)))
  {
    Reachable(Init(), steps);
    WhatHappened(Init(), steps);
  }

  /** Started, then cancelled, but dropped before the watcher woke: the clone runs on. */
  lemma DroppedTooSoonRunsOn()
    ensures var steps := [StoreHandle, LookForCancel, Cancel, DropStopper];
      && Legal(Init(), steps)
      && var st := After(Init(), steps); st.cancelled && st.starter.Started? && st.watcher.Aborted? && st.stops == 0
  {
    var steps := [StoreHandle, LookForCancel, Cancel, DropStopper];
    var st1 := Apply(Init(), StoreHandle);
    var st2 := Apply(st1, LookForCancel);
    var st3 := Apply(st2, Cancel);
    assert steps[3..] == [DropStopper] && steps[2..] == [Cancel] + steps[3..] && steps[1..] == [LookForCancel] + steps[2..];
    assert Legal(st3, steps[3..]) && After(st3, steps[3..]) == Apply(st3, DropStopper);
    assert Legal(st2, steps[2..]) && After(st2, steps[2..]) == Apply(st3, DropStopper);
    assert Legal(st1, steps[1..]) && After(st1, steps[1..]) == Apply(st3, DropStopper);
  }

  // ----- the slot itself -----

  type CloneId = nat

  /** The shared slot, changed under its lock. */
  class Slot {
    var handle: Option<CloneId>
    var stopped: seq<CloneId>

    constructor ()
      ensures handle == None && stopped == []
    {
      handle, stopped := None, [];
    }

    /** `stop_the_clone`: whoever takes the handle stops the clone, and leaves nothing to take. */
    method StopTheClone()
      modifies this
      ensures handle == None
      ensures stopped == old(stopped) + if old(handle).Some? then [old(handle).value] else []
    {
      if handle.None? {
        return;
      }
      var clone := handle.value;
      handle := None;
      stopped := stopped + [clone];
    }

    /**
     `started`: the clone is kept for later, or stopped once if the cancel came by the time it looks, whether
     or not the watcher got in between the two and took the handle first.
     */
    method Start(clone: CloneId, cancelled: bool, watcherFirst: bool)
      requires watcherFirst ==> cancelled
      modifies this
      ensures if cancelled then handle == None && stopped == old(stopped) + [clone]
              else handle == Some(clone) && stopped == old(stopped)
    {
      handle := Some(clone);
      if watcherFirst {
        StopTheClone();
      }
      if cancelled {
        StopTheClone();
      }
    }
  }
}
