/** Sharding the workspace: each CI job runs one balanced group, batched again within the job. */
module ShardPlan {
  import opened Basics
  import opened WindowedPlan
  import opened BalancedPlan

  predicate Picks(names: seq<string>, p: Package) { p.name in names }

  /** The packages of shard `index` of `total`, counted from one. */
  function Shard(packages: seq<Package>, index: int, total: int): (r: Result<seq<Package>, PlanError>)
  {
    if !(1 <= index <= total) then Err(ShardOutOfRange)
    else
      var groups := Balanced(WithTests(packages), total);
      if |groups| < total then Err(ShardEmpty)
      else
        var names := Names(groups[index - 1]);
        Ok(Keep(p => Picks(names, p), packages))
  }

  /** `shardPackages`. */
  method ShardPackages(packages: seq<Package>, index: int, total: int) returns (r: Result<seq<Package>, PlanError>)
    ensures r == Shard(packages, index, total)
  {
    if total < 1 || index < 1 || index > total {
      return Err(ShardOutOfRange);
    }
    var groups := BalancedBatches(packages, total);
    if |groups.value| < total {
      return Err(ShardEmpty);
    }
    var names := groups.value[index - 1];
    return Ok(Keep(p => Picks(names, p), packages));
  }

  /** A shard is given out exactly for an index in range of a fillable workspace: all shards or none. */
  lemma ShardGivenIff(packages: seq<Package>, index: int, total: int)
    ensures Shard(packages, index, total).Ok? <==> 1 <= index <= total && Fillable(WithTests(packages), total)
  {
    if 1 <= index <= total {
      BalancedBounds(WithTests(packages), total);
      ExactlyCount(WithTests(packages), total);
    }
  }

  predicate DistinctNames(packages: seq<Package>)
  {
    Distinct(Names(packages))
  }

  lemma NamesAppend(a: seq<Package>, b: seq<Package>)
    ensures Names(a + b) == Names(a) + Names(b)
  {
  }

  lemma NameListed(packages: seq<Package>, p: Package)
    requires p in packages
    ensures p.name in Names(packages)
  {
    var i :| 0 <= i < |packages| && packages[i] == p;
    assert Names(packages)[i] == p.name;
  }

  lemma {:induction false} SameNameSamePackage(packages: seq<Package>, p: Package, q: Package)
    requires DistinctNames(packages) && p in packages && q in packages && p.name == q.name
    ensures p == q
  {
    var rest := packages[1..];
    assert Names(packages)[1..] == Names(rest) && Names(packages)[0] == packages[0].name;
    if p in rest {
      NameListed(rest, p);
    }
    if q in rest {
      NameListed(rest, q);
    }
    if p in rest && q in rest {
      SameNameSamePackage(rest, p, q);
    }
  }

  lemma {:induction false} KeptDistinct(packages: seq<Package>)
    requires DistinctNames(packages)
    ensures DistinctNames(WithTests(packages)) && Distinct(WithTests(packages))
  {
    if packages != [] {
      var first, rest := packages[0], packages[1..];
      assert Names(packages)[1..] == Names(rest);
      KeptDistinct(rest);
      var kept, after := WithTests(packages), WithTests(rest);
      if HasTests(first) {
        assert kept == [first] + after;
        assert Names(kept) == [first.name] + Names(after);
        forall p | p in after ensures p.name != first.name { NameListed(rest, p); }
        assert first !in after && first.name !in Names(after);
        assert kept[1..] == after && Names(kept)[1..] == Names(after);
      } else {
        assert kept == after;
      }
    }
  }

  /** Picking a stretch of distinct packages back out by its names gives that stretch. */
  lemma PickStretch(before: seq<Package>, stretch: seq<Package>, rest: seq<Package>)
    requires DistinctNames(before + (stretch + rest))
    ensures var names := Names(stretch); Keep(p => Picks(names, p), before + (stretch + rest)) == stretch
  {
    var names := Names(stretch);
    var pick := p => Picks(names, p);
    NamesAppend(before, stretch + rest);
    NamesAppend(stretch, rest);
    DistinctSplit(Names(before), names + Names(rest));
    DistinctSplit(names, Names(rest));
    forall p | p in stretch ensures pick(p) { NameListed(stretch, p); }
    forall p | p in before ensures !pick(p) { NameListed(before, p); }
    forall p | p in rest ensures !pick(p) { NameListed(rest, p); }
    KeepAppend(pick, before, stretch + rest);
    KeepAppend(pick, stretch, rest);
    KeepAll(pick, stretch);
    KeepNone(pick, before);
    KeepNone(pick, rest);
  }

  /** A shard is one of the balanced groups, in workspace order. */
  lemma ShardIsGroup(packages: seq<Package>, index: int, total: int)
    requires DistinctNames(packages) && Shard(packages, index, total).Ok?
    ensures var groups := Balanced(WithTests(packages), total);
      |groups| == total && Shard(packages, index, total).value == groups[index - 1]
  {
    var kept := WithTests(packages);
    var groups := Balanced(kept, total);
    BalancedBounds(kept, total);
    var before, group, rest := Flatten(groups[..index - 1]), groups[index - 1], Flatten(groups[index..]);
    assert groups == groups[..index - 1] + ([group] + groups[index..]);
    FlattenAppend(groups[..index - 1], [group] + groups[index..]);
    FlattenAppend([group], groups[index..]);
    assert kept == before + (group + rest);
    KeptDistinct(packages);
    PickStretch(before, group, rest);
    var names := Names(group);
    forall p | p in packages && Picks(names, p) ensures HasTests(p) {
      var i :| 0 <= i < |names| && names[i] == p.name;
      assert group[i] in kept;
      SameNameSamePackage(packages, p, group[i]);
    }
    KeepThrough(p => Picks(names, p), HasTests, packages);
  }

  function Shards(packages: seq<Package>, total: nat): (shards: seq<seq<Package>>)
    requires forall i | 1 <= i <= total :: Shard(packages, i, total).Ok?
  {
    seq(total, i requires 0 <= i < total => Shard(packages, i + 1, total).value)
  }

  /** The shards one after another are exactly the packages with tests, in order. */
  lemma ShardsPartition(packages: seq<Package>, total: nat)
    requires DistinctNames(packages) && Fillable(WithTests(packages), total) && total >= 1
    ensures forall i | 1 <= i <= total :: Shard(packages, i, total).Ok?
    ensures IsSplit(Shards(packages, total), WithTests(packages))
  {
    forall i | 1 <= i <= total ensures Shard(packages, i, total).Ok? {
      ShardGivenIff(packages, i, total);
    }
    var groups := Balanced(WithTests(packages), total);
    BalancedBounds(WithTests(packages), total);
    ExactlyCount(WithTests(packages), total);
    forall i | 0 <= i < total ensures Shards(packages, total)[i] == groups[i] {
      ShardIsGroup(packages, i + 1, total);
    }
    assert Shards(packages, total) == groups;
  }

  // ----- every package in one batch of one shard -----

  /** Both batchings cut the whole shard: nothing of it is dropped as having no tests. */
  lemma BatchingCoversShard(packages: seq<Package>, index: int, total: int, count: int, cap: int)
    requires DistinctNames(packages) && Shard(packages, index, total).Ok? && count >= 1
    ensures var shard := Shard(packages, index, total).value;
      && WithTests(shard) == shard && IsSplit(Balanced(WithTests(shard), count), shard)
      && forall split | IsFewest(split, WithTests(shard), cap) :: IsSplit(split, shard)
  {
    var shard := Shard(packages, index, total).value;
    var groups := Balanced(WithTests(packages), total);
    ShardIsGroup(packages, index, total);
    BalancedBounds(WithTests(packages), total);
    forall p | p in shard ensures HasTests(p) { InFlatten(groups, index - 1, p); }
    KeepAll(HasTests, shard);
    BalancedBounds(shard, count);
  }

  /**
   However each shard is then cut into batches, the batches of all shards together run every package with
   tests once, in workspace order, and no package is in two of them.
   */
  lemma EveryPackageRunsOnce(packages: seq<Package>, total: nat, plans: seq<seq<seq<Package>>>)
    requires DistinctNames(packages) && Fillable(WithTests(packages), total) && total >= 1
    requires |plans| == total
    requires forall i | 0 <= i < total ::
      Shard(packages, i + 1, total).Ok? && IsSplit(plans[i], Shard(packages, i + 1, total).value)
    ensures Flatten(Flatten(plans)) == WithTests(packages)
    ensures forall x, a, b | 0 <= a < b < |Flatten(plans)| ::
      !(x in Flatten(plans)[a] && x in Flatten(plans)[b])
  {
    ShardsPartition(packages, total);
    var shards := Shards(packages, total);
    FlattenNested(plans, shards);
    KeptDistinct(packages);
    forall x, a, b | 0 <= a < b < |Flatten(plans)|
      ensures !(x in Flatten(plans)[a] && x in Flatten(plans)[b])
    {
      OnePartOnly(Flatten(plans), x, a, b);
    }
  }
}
