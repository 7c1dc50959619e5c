/**
 Cutting the workspace's packages into batches and shards by how many test binaries they build: a
 greedy window under a cap, a contiguous split balanced by binaries, and shards cut with that split.
 */
module WindowedPlan {
  import opened Basics

  datatype Package = Package(name: string, binaries: int)

  datatype PlanError = CapBelowOne | CountBelowOne | ShardOutOfRange | ShardEmpty

  predicate HasTests(p: Package) { p.binaries > 0 }

  /** Both splits look only at packages that have tests. */
  function WithTests(packages: seq<Package>): (kept: seq<Package>)
    ensures AllTested(kept)
  {
    Keep(HasTests, packages)
  }

  predicate AllTested(packages: seq<Package>)
  {
    forall p | p in packages :: HasTests(p)
  }

  function Weight(packages: seq<Package>): (binaries: int)
  {
    if packages == [] then 0 else packages[0].binaries + Weight(packages[1..])
  }

  lemma {:induction false} WeightAppend(a: seq<Package>, b: seq<Package>)
    ensures Weight(a + b) == Weight(a) + Weight(b)
  {
    if a == [] {
      assert a + b == b;
    } else {
      assert (a + b)[1..] == a[1..] + b;
      WeightAppend(a[1..], b);
    }
  }

  lemma WeightPush(a: seq<Package>, p: Package)
    ensures Weight(a + [p]) == Weight(a) + p.binaries
  {
    WeightAppend(a, [p]);
    assert Weight([p]) == p.binaries;
  }

  lemma {:induction false} WeightPositive(ps: seq<Package>)
    requires AllTested(ps)
    ensures Weight(ps) >= |ps|
  {
    if ps != [] {
      assert HasTests(ps[0]);
      WeightPositive(ps[1..]);
    }
  }

  /** A stretch of a list of tested packages weighs at most what a longer stretch does. */
  lemma StretchWeight(ps: seq<Package>, a: nat, b: nat, lo: nat, hi: nat)
    requires AllTested(ps) && lo <= a <= b <= hi <= |ps|
    ensures Weight(ps[a..b]) <= Weight(ps[lo..hi])
  {
    assert ps[lo..hi] == ps[lo..a] + ps[a..b] + ps[b..hi];
    WeightAppend(ps[lo..a] + ps[a..b], ps[b..hi]);
    WeightAppend(ps[lo..a], ps[a..b]);
    WeightPositive(ps[lo..a]);
    WeightPositive(ps[b..hi]);
  }

  function Names(packages: seq<Package>): (names: seq<string>)
  {
    seq(|packages|, i requires 0 <= i < |packages| => packages[i].name)
  }

  function BatchNames(split: seq<seq<Package>>): (batches: seq<seq<string>>)
  {
    seq(|split|, i requires 0 <= i < |split| => Names(split[i]))
  }

  lemma NamesPush(packages: seq<Package>, p: Package)
    ensures Names(packages + [p]) == Names(packages) + [p.name]
  {
  }

  lemma BatchNamesPush(split: seq<seq<Package>>, batch: seq<Package>)
    ensures BatchNames(split + [batch]) == BatchNames(split) + [Names(batch)]
  {
  }

  /** A cut of `ps` into non-empty contiguous batches, in order. */
  ghost predicate IsSplit(split: seq<seq<Package>>, ps: seq<Package>)
  {
    Flatten(split) == ps && forall i | 0 <= i < |split| :: split[i] != []
  }

  /** Where batch `i` starts. */
  function Start(split: seq<seq<Package>>, i: nat): (at: nat)
    requires i <= |split|
  {
    |Flatten(split[..i])|
  }

  lemma BatchIsStretch(split: seq<seq<Package>>, i: nat)
    requires i < |split|
    ensures Start(split, i) + |split[i]| == Start(split, i + 1) <= |Flatten(split)|
    ensures split[i] == Flatten(split)[Start(split, i)..Start(split, i + 1)]
  {
    assert split == split[..i + 1] + split[i + 1..] && split[..i + 1] == split[..i] + [split[i]];
    FlattenAppend(split[..i + 1], split[i + 1..]);
    FlattenPush(split[..i], split[i]);
  }

  // ----- the capped window -----

  /** A batch is within the cap, or is one package that cannot be split. */
  predicate Fits(batch: seq<Package>, cap: int)
  {
    |batch| == 1 || Weight(batch) <= cap
  }

  ghost predicate IsWindowed(split: seq<seq<Package>>, ps: seq<Package>, cap: int)
  {
    IsSplit(split, ps) && forall i | 0 <= i < |split| :: Fits(split[i], cap)
  }

  /** No batch could have taken the package that opens the next one. */
  ghost predicate IsGreedy(split: seq<seq<Package>>, cap: int)
  {
    forall i | 0 < i < |split| :: split[i] != [] && !Fits(split[i - 1] + [split[i][0]], cap)
  }

  /** The greedy split is never behind any other: its batch `i` starts no earlier. */
  lemma {:induction false} GreedyStaysAhead(greedy: seq<seq<Package>>, other: seq<seq<Package>>,
                                            ps: seq<Package>, cap: int, i: nat)
    requires AllTested(ps) && IsWindowed(greedy, ps, cap) && IsGreedy(greedy, cap) && IsWindowed(other, ps, cap)
    requires i < |greedy| && i <= |other|
    ensures Start(other, i) <= Start(greedy, i)
  {
    if i > 0 {
      var j := i - 1;
      GreedyStaysAhead(greedy, other, ps, cap, j);
      BatchIsStretch(greedy, j);
      BatchIsStretch(greedy, i);
      BatchIsStretch(other, j);
      if Start(other, i) > Start(greedy, i) {
        var a, b := Start(greedy, j), Start(greedy, i) + 1;
        assert greedy[j] + [greedy[i][0]] == ps[a..b];
        StretchWeight(ps, a, b, Start(other, j), Start(other, i));
        assert false;
      }
    }
  }

  /** No contiguous split under the cap has fewer batches than a greedy one. */
  lemma GreedyIsOptimal(greedy: seq<seq<Package>>, other: seq<seq<Package>>, ps: seq<Package>, cap: int)
    requires AllTested(ps) && IsWindowed(greedy, ps, cap) && IsGreedy(greedy, cap) && IsWindowed(other, ps, cap)
    ensures |greedy| <= |other|
  {
    assert other[..|other|] == other;
    if |other| < |greedy| {
      GreedyStaysAhead(greedy, other, ps, cap, |other|);
      BatchIsStretch(greedy, |other|);
      assert false;
    }
  }

  /** The closed batches and the open one, `kept` being the packages taken so far. */
  ghost predicate Window(closed: seq<seq<Package>>, open: seq<Package>, kept: seq<Package>, cap: int)
  {
    && IsWindowed(Ended(closed, open), kept, cap) && IsGreedy(Ended(closed, open), cap)
    && (open == [] ==> closed == [])
  }

  function Ended(closed: seq<seq<Package>>, open: seq<Package>): (split: seq<seq<Package>>)
  {
    if open == [] then closed else closed + [open]
  }

  /** Taking a package into the open batch. */
  lemma WindowTake(closed: seq<seq<Package>>, open: seq<Package>, kept: seq<Package>, pkg: Package, cap: int)
    requires Window(closed, open, kept, cap) && (open == [] || Weight(open) + pkg.binaries <= cap)
    ensures Window(closed, open + [pkg], kept + [pkg], cap)
  {
    var was, now := Ended(closed, open), closed + [open + [pkg]];
    WeightPush(open, pkg);
    FlattenPush(closed, open);
    FlattenPush(closed, open + [pkg]);
    forall i | 0 <= i < |now| ensures now[i] != [] && Fits(now[i], cap) {
      if i < |closed| {
        assert was[i] == now[i];
      }
    }
    forall i | 0 < i < |now| ensures now[i] != [] && !Fits(now[i - 1] + [now[i][0]], cap) {
      assert was[i - 1] == now[i - 1] && was[i][0] == now[i][0];
    }
  }

  /** Closing the open batch because the package would not fit, and opening the next with it. */
  lemma WindowClose(closed: seq<seq<Package>>, open: seq<Package>, kept: seq<Package>, pkg: Package, cap: int)
    requires Window(closed, open, kept, cap) && open != [] && Weight(open) + pkg.binaries > cap
    ensures Window(closed + [open], [pkg], kept + [pkg], cap)
  {
    var was, now := Ended(closed, open), closed + [open] + [[pkg]];
    WeightPush(open, pkg);
    FlattenPush(closed + [open], [pkg]);
    assert !Fits(open + [pkg], cap);
    forall i | 0 <= i < |now| ensures now[i] != [] && Fits(now[i], cap) {
      if i < |was| {
        assert was[i] == now[i];
      }
    }
    forall i | 0 < i < |now| ensures now[i] != [] && !Fits(now[i - 1] + [now[i][0]], cap) {
      if i < |was| {
        assert was[i - 1] == now[i - 1] && was[i] == now[i];
      }
    }
  }

  /**
   `windowBatches`: the packages with tests in order, each batch within the cap or a single package, and
   in as few batches as any such split.
   */
  method WindowBatches(packages: seq<Package>, cap: int) returns (r: Result<seq<seq<string>>, PlanError>)
    ensures cap < 1 ==> r == Err(CapBelowOne)
    ensures cap >= 1 ==> r.Ok? && exists split ::
      r.value == BatchNames(split) && IsFewest(split, WithTests(packages), cap) && IsGreedy(split, cap)
  {
    if cap < 1 {
      return Err(CapBelowOne);
    }
    var batches: seq<seq<string>> := [];
    var current: seq<string> := [];
    var size := 0;
    ghost var closed: seq<seq<Package>>, open: seq<Package> := [], [];
    for i := 0 to |packages|
      invariant Window(closed, open, WithTests(packages[..i]), cap)
      invariant Drawn(batches, current, size, closed, open)
    {
      var pkg := packages[i];
      TakeOne(packages, i);
      if pkg.binaries <= 0 {
        continue;
      }
      DrawnMore(batches, current, size, closed, open, pkg);
      if |current| > 0 && size + pkg.binaries > cap {
        WindowClose(closed, open, WithTests(packages[..i]), pkg, cap);
        batches, closed := batches + [current], closed + [open];
        current, open := [pkg.name], [pkg];
        size := pkg.binaries;
      } else {
        WindowTake(closed, open, WithTests(packages[..i]), pkg, cap);
        current, open := current + [pkg.name], open + [pkg];
        size := size + pkg.binaries;
      }
    }
    assert packages[..|packages|] == packages;
    WindowIsFewest(closed, open, WithTests(packages), cap);
    DrawnEnded(batches, current, size, closed, open);
    if |current| > 0 {
      batches := batches + [current];
    }
    return Ok(batches);
  }

  /** The names and the size are those of the batches. */
  predicate Drawn(batches: seq<seq<string>>, current: seq<string>, size: int,
                  closed: seq<seq<Package>>, open: seq<Package>)
  {
    batches == BatchNames(closed) && current == Names(open) && size == Weight(open)
  }

  lemma DrawnMore(batches: seq<seq<string>>, current: seq<string>, size: int,
                  closed: seq<seq<Package>>, open: seq<Package>, pkg: Package)
    requires Drawn(batches, current, size, closed, open)
    ensures Drawn(batches, current + [pkg.name], size + pkg.binaries, closed, open + [pkg])
    ensures Drawn(batches + [current], [pkg.name], pkg.binaries, closed + [open], [pkg])
    ensures |current| == |open|
  {
    WeightPush(open, pkg);
    NamesPush(open, pkg);
    BatchNamesPush(closed, open);
    assert [pkg][1..] == [];
  }

  lemma DrawnEnded(batches: seq<seq<string>>, current: seq<string>, size: int,
                   closed: seq<seq<Package>>, open: seq<Package>)
    requires Drawn(batches, current, size, closed, open)
    ensures BatchNames(Ended(closed, open)) == if |current| > 0 then batches + [current] else batches
  {
    BatchNamesPush(closed, open);
  }

  /** A windowed split with no more batches than any other. */
  ghost predicate IsFewest(split: seq<seq<Package>>, ps: seq<Package>, cap: int)
  {
    && IsWindowed(split, ps, cap)
    && forall other :: IsWindowed(other, ps, cap) ==> |split| <= |other|
  }

  lemma WindowIsFewest(closed: seq<seq<Package>>, open: seq<Package>, kept: seq<Package>, cap: int)
    requires Window(closed, open, kept, cap) && AllTested(kept)
    ensures IsFewest(Ended(closed, open), kept, cap) && IsGreedy(Ended(closed, open), cap)
  {
    forall other | IsWindowed(other, kept, cap) ensures |Ended(closed, open)| <= |other| {
      GreedyIsOptimal(Ended(closed, open), other, kept, cap);
    }
  }

  lemma TakeOne(packages: seq<Package>, i: nat)
    requires i < |packages|
    ensures !HasTests(packages[i]) ==> WithTests(packages[..i + 1]) == WithTests(packages[..i])
    ensures HasTests(packages[i]) ==> WithTests(packages[..i + 1]) == WithTests(packages[..i]) + [packages[i]]
  {
    assert packages[..i + 1] == packages[..i] + [packages[i]];
    KeepAppend(HasTests, packages[..i], [packages[i]]);
    assert Keep(HasTests, []) == [] && [packages[i]][1..] == [];
  }
}
