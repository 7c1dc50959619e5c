/**
 The contiguous split balanced by test binaries, and the shards cut with it.

 A batch closes once the running total reaches its share of the whole; `running >= ((k + 1) * total) / count`
 is written without the division, as `running * count >= (k + 1) * total`.
 */
module BalancedPlan {
  import opened Basics
  import opened WindowedPlan

  /** The closed batches and the open one. */
  datatype Fill = Fill(closed: seq<seq<Package>>, open: seq<Package>)

  predicate Closes(k: nat, count: int, running: int, total: int)
  {
    k != count - 1 && running * count >= (k + 1) * total
  }

  /** The loop's state after the first `i` packages. */
  function Filled(ps: seq<Package>, count: int, i: nat): (f: Fill)
    requires i <= |ps|
  {
    if i == 0 then Fill([], [])
    else
      var f := Filled(ps, count, i - 1);
      var open := f.open + [ps[i - 1]];
      if Closes(|f.closed|, count, Weight(ps[..i]), Weight(ps)) then Fill(f.closed + [open], [])
      else Fill(f.closed, open)
  }

  function Balanced(ps: seq<Package>, count: int): (split: seq<seq<Package>>)
  {
    var f := Filled(ps, count, |ps|);
    Ended(f.closed, f.open)
  }

  /** `balancedBatches`. */
  method BalancedBatches(packages: seq<Package>, count: int) returns (r: Result<seq<seq<string>>, PlanError>)
    ensures count < 1 ==> r == Err(CountBelowOne)
    ensures count >= 1 ==> r == Ok(BatchNames(Balanced(WithTests(packages), count)))
  {
    if count < 1 {
      return Err(CountBelowOne);
    }
    var withTests := WithTests(packages);
    var total := Weight(withTests);
    var batches: seq<seq<string>> := [];
    var current: seq<string> := [];
    var running := 0;
    for i := 0 to |withTests|
      invariant running == Weight(withTests[..i])
      invariant Named(batches, current, Filled(withTests, count, i))
    {
      NamedStep(withTests, count, i, batches, current);
      current := current + [withTests[i].name];
      running := running + withTests[i].binaries;
      if Closes(|batches|, count, running, total) {
        batches := batches + [current];
        current := [];
      }
    }
    ghost var f := Filled(withTests, count, |withTests|);
    BatchNamesPush(f.closed, f.open);
    if |current| > 0 {
      batches := batches + [current];
    }
    return Ok(batches);
  }

  predicate Named(batches: seq<seq<string>>, current: seq<string>, f: Fill)
  {
    batches == BatchNames(f.closed) && current == Names(f.open)
  }

  lemma NamedStep(ps: seq<Package>, count: int, i: nat, batches: seq<seq<string>>, current: seq<string>)
    requires i < |ps| && Named(batches, current, Filled(ps, count, i))
    ensures Weight(ps[..i + 1]) == Weight(ps[..i]) + ps[i].binaries
    ensures var now := current + [ps[i].name];
      if Closes(|batches|, count, Weight(ps[..i + 1]), Weight(ps))
      then Named(batches + [now], [], Filled(ps, count, i + 1))
      else Named(batches, now, Filled(ps, count, i + 1))
  {
    var f := Filled(ps, count, i);
    assert ps[..i + 1] == ps[..i] + [ps[i]];
    WeightPush(ps[..i], ps[i]);
    NamesPush(f.open, ps[i]);
    BatchNamesPush(f.closed, f.open + [ps[i]]);
  }

  // ----- how many batches, and how heavy -----

  /** A batch without its last package weighs less than one share. */
  predicate Light(batch: seq<Package>, count: int, total: int)
  {
    batch != [] && Weight(batch[..|batch| - 1]) * count < total
  }

  /**
   `k` batches are closed, and what they hold is at least their shares; an open batch has not reached
   its share yet.
   */
  predicate Paced(k: int, running: int, open: seq<Package>, count: int, total: int)
  {
    && k <= count - 1
    && (running - Weight(open)) * count >= k * total
    && (open != [] && k < count - 1 ==> running * count < (k + 1) * total)
  }

  ghost predicate AllLight(closed: seq<seq<Package>>, count: int, total: int)
  {
    forall k | 0 <= k < |closed| :: Light(closed[k], count, total)
  }

  lemma UnderOneShare(running: int, open: int, k: int, count: int, total: int)
    requires (running - open) * count >= k * total && running * count < (k + 1) * total
    ensures open * count < total
  {
    assert (running - open) * count == running * count - open * count;
    assert (k + 1) * total == k * total + total;
  }

  lemma ClosedIsLight(ps: seq<Package>, count: int, i: nat, f: Fill)
    requires AllTested(ps) && i < |ps| && Paced(|f.closed|, Weight(ps[..i]), f.open, count, Weight(ps))
    requires |f.closed| < count - 1
    ensures Light(f.open + [ps[i]], count, Weight(ps))
  {
    var open := f.open + [ps[i]];
    assert open[..|open| - 1] == f.open;
    if f.open == [] {
      WeightPositive(ps);
    } else {
      UnderOneShare(Weight(ps[..i]), Weight(f.open), |f.closed|, count, Weight(ps));
    }
  }

  lemma {:induction false} FilledPaced(ps: seq<Package>, count: int, i: nat)
    requires AllTested(ps) && count >= 1 && i <= |ps|
    ensures var f := Filled(ps, count, i); Paced(|f.closed|, Weight(ps[..i]), f.open, count, Weight(ps))
  {
    if i > 0 {
      var f := Filled(ps, count, i - 1);
      FilledPaced(ps, count, i - 1);
      assert ps[..i] == ps[..i - 1] + [ps[i - 1]];
      WeightPush(ps[..i - 1], ps[i - 1]);
      WeightPush(f.open, ps[i - 1]);
      assert Weight(ps[..i]) - Weight(f.open + [ps[i - 1]]) == Weight(ps[..i - 1]) - Weight(f.open);
    }
  }

  lemma {:induction false} FilledLight(ps: seq<Package>, count: int, i: nat)
    requires AllTested(ps) && count >= 1 && i <= |ps|
    ensures AllLight(Filled(ps, count, i).closed, count, Weight(ps))
  {
    if i > 0 {
      var f := Filled(ps, count, i - 1);
      FilledLight(ps, count, i - 1);
      FilledPaced(ps, count, i - 1);
      if |f.closed| < count - 1 {
        ClosedIsLight(ps, count, i - 1, f);
      }
    }
  }

  lemma {:induction false} FilledHolds(ps: seq<Package>, count: int, i: nat)
    requires i <= |ps|
    ensures var f := Filled(ps, count, i); Flatten(f.closed) + f.open == ps[..i]
  {
    if i > 0 {
      FilledHolds(ps, count, i - 1);
      assert ps[..i] == ps[..i - 1] + [ps[i - 1]];
      HoldsMore(Filled(ps, count, i - 1), ps[..i - 1], ps[i - 1]);
    }
  }

  lemma HoldsMore(f: Fill, taken: seq<Package>, p: Package)
    requires Flatten(f.closed) + f.open == taken
    ensures Flatten(f.closed) + (f.open + [p]) == taken + [p]
    ensures Flatten(f.closed + [f.open + [p]]) + [] == taken + [p]
  {
    FlattenPush(f.closed, f.open + [p]);
  }

  lemma MoreShares(a: int, b: int, total: int)
    requires a >= b && total >= 0
    ensures a * total >= b * total
  {
  }

  /** An open batch left at the end is the last of `count`. */
  lemma LeftOpen(ps: seq<Package>, count: int, f: Fill)
    requires AllTested(ps) && count >= 1 && f == Filled(ps, count, |ps|)
    ensures |f.closed| < count && (f.open != [] ==> |f.closed| == count - 1)
  {
    FilledPaced(ps, count, |ps|);
    assert ps[..|ps|] == ps;
    if f.open != [] && |f.closed| < count - 1 {
      WeightPositive(ps);
      FilledHolds(ps, count, |ps|);
      MoreShares(count, |f.closed| + 1, Weight(ps));
    }
  }

  /** A batch of tested packages outweighs what it is without its last. */
  lemma LastWeighs(batch: seq<Package>)
    requires AllTested(batch) && batch != []
    ensures Weight(batch[..|batch| - 1]) < Weight(batch)
  {
    var body := batch[..|batch| - 1];
    assert batch == body + [batch[|batch| - 1]] && HasTests(batch[|batch| - 1]);
    WeightPush(body, batch[|batch| - 1]);
  }

  /** It holds at most what the other shares leave. */
  lemma LeftHolds(ps: seq<Package>, count: int, f: Fill, total: int, weight: int)
    requires AllTested(ps) && count >= 1 && f == Filled(ps, count, |ps|) && |f.closed| == count - 1
    requires total == Weight(ps) && weight == Weight(f.open)
    ensures AllTested(f.open) && (total - weight) * count >= (count - 1) * total
  {
    FilledPaced(ps, count, |ps|);
    FilledHolds(ps, count, |ps|);
    assert ps[..|ps|] == ps && forall p | p in f.open :: p in ps;
  }

  lemma LastShare(total: int, open: int, body: int, count: int)
    requires body < open && count >= 1 && (total - open) * count >= (count - 1) * total
    ensures body * count < total
  {
    assert (total - open) * count == total * count - open * count;
    assert (count - 1) * total == count * total - total;
    assert (open - body) * count == open * count - body * count;
    MoreShares(open - body, 1, count);
  }

  /** So it is light. */
  lemma LeftIsLight(open: seq<Package>, count: int, total: int, weight: int)
    requires AllTested(open) && open != [] && weight == Weight(open)
    requires count >= 1 && (total - weight) * count >= (count - 1) * total
    ensures Light(open, count, total)
  {
    LastWeighs(open);
    LastShare(total, weight, Weight(open[..|open| - 1]), count);
  }

  lemma EndedLight(f: Fill, count: int, total: int)
    requires AllLight(f.closed, count, total) && (f.open != [] ==> Light(f.open, count, total))
    ensures AllLight(Ended(f.closed, f.open), count, total)
  {
  }

  lemma BalancedLight(ps: seq<Package>, count: int, f: Fill, total: int)
    requires AllTested(ps) && count >= 1 && f == Filled(ps, count, |ps|) && total == Weight(ps)
    ensures AllLight(Ended(f.closed, f.open), count, total)
  {
    FilledLight(ps, count, |ps|);
    if f.open != [] {
      LeftOpen(ps, count, f);
      LeftHolds(ps, count, f, total, Weight(f.open));
      LeftIsLight(f.open, count, total, Weight(f.open));
    }
    EndedLight(f, count, total);
  }

  /**
   For every list of tested packages the balanced split is a split into at most `count` batches, each of
   which, without its last package, weighs strictly less than one share.
   */
  lemma BalancedBounds(ps: seq<Package>, count: int)
    requires AllTested(ps) && count >= 1
    ensures IsSplit(Balanced(ps, count), ps) && |Balanced(ps, count)| <= count
    ensures AllLight(Balanced(ps, count), count, Weight(ps))
  {
    var f := Filled(ps, count, |ps|);
    LeftOpen(ps, count, f);
    BalancedLight(ps, count, f, Weight(ps));
    FilledHolds(ps, count, |ps|);
    FlattenPush(f.closed, f.open);
    assert ps[..|ps|] == ps;
    assert forall k | 0 <= k < |Balanced(ps, count)| :: Light(Balanced(ps, count)[k], count, Weight(ps));
  }

  // ----- when the split has exactly `count` batches -----

  /**
   What a caller can check beforehand: there are `count` packages with tests, and for every `m` below
   `count` the last `m` of them weigh together at most `m` shares.
   */
  ghost predicate Fillable(ps: seq<Package>, count: int)
  {
    && |ps| >= count
    && forall m | 1 <= m < count :: Weight(ps[|ps| - m..]) * count <= m * Weight(ps)
  }

  function Closed(ps: seq<Package>, count: int, i: nat): (k: nat)
    requires i <= |ps|
  {
    |Filled(ps, count, i).closed|
  }

  lemma {:induction false} ClosedGrowth(ps: seq<Package>, count: int, i: nat, j: nat)
    requires i <= j <= |ps|
    ensures Closed(ps, count, i) <= Closed(ps, count, j) <= Closed(ps, count, i) + (j - i)
    decreases j
  {
    if i < j {
      ClosedGrowth(ps, count, i, j - 1);
    }
  }

  lemma OpenWeight(ps: seq<Package>, count: int, i: nat)
    requires AllTested(ps) && i <= |ps|
    ensures Weight(Filled(ps, count, i).open) >= 0
  {
    var f := Filled(ps, count, i);
    FilledHolds(ps, count, i);
    assert forall p | p in f.open :: p in Flatten(f.closed) + f.open;
    WeightPositive(f.open);
  }

  /** The closed batches hold their shares. */
  lemma ClosedReached(ps: seq<Package>, count: int, i: nat)
    requires AllTested(ps) && count >= 1 && i <= |ps|
    ensures Weight(ps[..i]) * count >= Closed(ps, count, i) * Weight(ps)
  {
    var f := Filled(ps, count, i);
    FilledPaced(ps, count, i);
    OpenWeight(ps, count, i);
    ReachedArith(Weight(ps[..i]), f.open, |f.closed|, count, Weight(ps));
  }

  lemma ReachedArith(running: int, open: seq<Package>, k: int, count: int, total: int)
    requires Paced(k, running, open, count, total) && Weight(open) >= 0 && count >= 1
    ensures running * count >= k * total
  {
    assert (running - Weight(open)) * count == running * count - Weight(open) * count;
  }

  lemma TakenAndRest(ps: seq<Package>, i: nat)
    requires i <= |ps|
    ensures Weight(ps[..i]) + Weight(ps[i..]) == Weight(ps)
  {
    assert ps == ps[..i] + ps[i..];
    WeightAppend(ps[..i], ps[i..]);
  }

  /** What is left, in shares, against what was taken. */
  lemma RestArith(taken: int, rest: int, m: int, count: int, total: int)
    requires taken + rest == total && rest * count <= m * total
    ensures taken * count >= (count - m) * total
  {
    assert total * count == taken * count + rest * count;
    assert (count - m) * total == count * total - m * total;
  }

  lemma TakenArith(taken: int, rest: int, k: int, m: int, count: int, total: int)
    requires taken + rest == total && total >= 0 && k >= count - m && taken * count >= k * total
    ensures rest * count <= m * total
  {
    MoreShares(k, count - m, total);
    assert total * count == taken * count + rest * count;
    assert (count - m) * total == count * total - m * total;
  }

  /** In a fillable list the packages up to the last `m` hold all but `m` shares. */
  lemma FillableShare(ps: seq<Package>, count: int, m: int, taken: int, total: int)
    requires Fillable(ps, count) && 1 <= m < count && m <= |ps|
    requires taken == Weight(ps[..|ps| - m]) && total == Weight(ps)
    ensures taken * count >= (count - m) * total
  {
    var rest := Weight(ps[|ps| - m..]);
    TakenAndRest(ps, |ps| - m);
    RestArith(taken, rest, m, count, total);
  }

  lemma {:induction false} FillableCloses(ps: seq<Package>, count: int, i: nat)
    requires AllTested(ps) && count >= 1 && Fillable(ps, count) && i < |ps|
    ensures Closed(ps, count, i) >= count - |ps| + i
  {
    if i > 0 {
      FillableCloses(ps, count, i - 1);
      FilledPaced(ps, count, i - 1);
      var k := Closed(ps, count, i - 1);
      if k == count - |ps| + i - 1 {
        FillableShare(ps, count, |ps| - i, Weight(ps[..i]), Weight(ps));
        assert Closes(k, count, Weight(ps[..i]), Weight(ps));
      }
    }
  }

  lemma CountBeforeLast(ps: seq<Package>, count: int)
    requires AllTested(ps) && count >= 1 && ps != []
    ensures |Balanced(ps, count)| == count <==> Closed(ps, count, |ps| - 1) == count - 1
  {
    LeftOpen(ps, count, Filled(ps, count, |ps|));
    FilledPaced(ps, count, |ps| - 1);
  }

  lemma ExactCountFills(ps: seq<Package>, count: int)
    requires AllTested(ps) && count >= 1 && ps != [] && |Balanced(ps, count)| == count
    ensures Fillable(ps, count)
  {
    var n := |ps|;
    CountBeforeLast(ps, count);
    ClosedGrowth(ps, count, 0, n - 1);
    forall m | 1 <= m < count ensures Weight(ps[n - m..]) * count <= m * Weight(ps) {
      LastShares(ps, count, n - m, Weight(ps[n - m..]), Weight(ps));
    }
  }

  /** With `count - 1` batches closed before the last package, enough were closed at every place before. */
  lemma ReachedBefore(ps: seq<Package>, count: int, i: nat, taken: int, total: int) returns (k: int)
    requires AllTested(ps) && count >= 1 && i < |ps| && Closed(ps, count, |ps| - 1) == count - 1
    requires taken == Weight(ps[..i]) && total == Weight(ps)
    ensures k >= count - (|ps| - i) && taken * count >= k * total
  {
    k := Closed(ps, count, i);
    ClosedGrowth(ps, count, i, |ps| - 1);
    ClosedReached(ps, count, i);
  }

  lemma LastShares(ps: seq<Package>, count: int, i: nat, rest: int, total: int)
    requires AllTested(ps) && count >= 1 && i < |ps| && Closed(ps, count, |ps| - 1) == count - 1
    requires rest == Weight(ps[i..]) && total == Weight(ps)
    ensures rest * count <= (|ps| - i) * total
  {
    var taken := Weight(ps[..i]);
    var k := ReachedBefore(ps, count, i, taken, total);
    assert taken + rest == total && total >= 0 by {
      WeightPositive(ps);
      TakenAndRest(ps, i);
    }
    TakenArith(taken, rest, k, |ps| - i, count, total);
  }

  /**
   The split has exactly `count` batches if and only if the packages are fillable. Having `count` packages
   is not enough: `[1, 1, 10]` into three is one batch.
   */
  lemma ExactlyCount(ps: seq<Package>, count: int)
    requires AllTested(ps) && count >= 1
    ensures |Balanced(ps, count)| == count <==> Fillable(ps, count)
  {
    if ps != [] {
      CountBeforeLast(ps, count);
      if |Balanced(ps, count)| == count {
        ExactCountFills(ps, count);
      }
      if Fillable(ps, count) {
        FillableCloses(ps, count, |ps| - 1);
        FilledPaced(ps, count, |ps| - 1);
      }
    }
  }

  lemma {:induction false} SmallWeight(ps: seq<Package>, count: int, total: int)
    requires forall p | p in ps :: p.binaries * count <= total
    ensures Weight(ps) * count <= |ps| * total
  {
    if ps != [] {
      assert forall p | p in ps[1..] :: p in ps;
      SmallWeight(ps[1..], count, total);
      assert ps[0] in ps;
      SumArith(ps[0].binaries, Weight(ps[1..]), |ps| - 1, count, total);
    }
  }

  lemma SumArith(a: int, b: int, n: int, count: int, total: int)
    requires a * count <= total && b * count <= n * total
    ensures (a + b) * count <= (n + 1) * total
  {
    assert (a + b) * count == a * count + b * count;
    assert (n + 1) * total == n * total + total;
  }

  /** Packages none of which exceeds one share are fillable. */
  lemma SmallPackagesFill(ps: seq<Package>, count: int)
    requires AllTested(ps) && count >= 1 && ps != []
    requires forall p | p in ps :: p.binaries * count <= Weight(ps)
    ensures Fillable(ps, count)
  {
    SmallWeight(ps, count, Weight(ps));
    WeightPositive(ps);
    AtLeast(|ps|, count, Weight(ps));
    forall m | 1 <= m < count ensures Weight(ps[|ps| - m..]) * count <= m * Weight(ps) {
      SmallWeight(ps[|ps| - m..], count, Weight(ps));
    }
  }

  lemma AtLeast(n: int, count: int, total: int)
    requires total * count <= n * total && total > 0
    ensures count <= n
  {
    if count > n {
      MoreShares(count, n + 1, total);
    }
  }

  /** The documented promise, that only too few packages give fewer batches, fails. */
  lemma EnoughPackagesAreNotEnough()
    ensures var ps := [Package("a", 1), Package("b", 1), Package("c", 10)];
      AllTested(ps) && |ps| == 3 && |Balanced(ps, 3)| != 3
  {
    var ps := [Package("a", 1), Package("b", 1), Package("c", 10)];
    assert ps[1..] == [Package("b", 1), Package("c", 10)] && ps[1..][1..] == [Package("c", 10)];
    assert Weight([Package("c", 10)]) == 10;
    assert Weight(ps) == 12 && Weight(ps[2..]) == 10;
    assert Weight(ps[|ps| - 1..]) * 3 > 1 * Weight(ps);
    ExactlyCount(ps, 3);
  }
}
