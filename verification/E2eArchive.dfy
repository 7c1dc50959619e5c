/** What a filterset selects, the names it mentions, and the archive plan derived from both. */
module E2eArchive {
  import opened Basics
  import opened FilterLexer
  import opened FilterParser

  /** What the predicates of a filterset are asked about: one test binary. */
  datatype Subject = Subject(package: string, binary: string, unit: bool)

  function Matches(filter: Filter, subject: Subject): (selected: bool)
  {
    match filter
    case Or(l, r) => Matches(l, subject) || Matches(r, subject)
    case And(l, r) => Matches(l, subject) && Matches(r, subject)
    case Not(inner) => !Matches(inner, subject)
    case Predicate(name, arg) =>
      match name
      case BinaryName => subject.binary == arg
      case PackageName => subject.package == arg
      case KindName => !subject.unit
  }

  function Chosen(filter: Filter, all: set<Subject>): (chosen: set<Subject>)
  {
    set t | t in all && Matches(filter, t)
  }

  /** Selecting is set algebra: union, intersection and complement of the targets of a name, or of all but unit tests. */
  lemma SelectsAsSets(l: Filter, r: Filter, name: string, all: set<Subject>)
    ensures Chosen(Or(l, r), all) == Chosen(l, all) + Chosen(r, all)
    ensures Chosen(And(l, r), all) == Chosen(l, all) * Chosen(r, all)
    ensures Chosen(Not(l), all) == all - Chosen(l, all)
    ensures Chosen(Predicate(KindName, "test"), all) == set t | t in all && !t.unit
    ensures Chosen(Predicate(BinaryName, name), all) == set t | t in all && t.binary == name
    ensures Chosen(Predicate(PackageName, name), all) == set t | t in all && t.package == name
  {
  }

  /** A name a filter mentions, with the package that qualifies a binary. */
  datatype Reference = PackageRef(package: string) | BinaryRef(binary: string, owner: Option<string>)

  function PackageOf(filter: Filter): (package: Option<string>)
  {
    if filter.Predicate? && filter.name == PackageName then Some(filter.arg) else None
  }

  function OrElse<T>(a: Option<T>, b: Option<T>): (r: Option<T>)
  {
    if a.Some? then a else b
  }

  /** Every name `filter` mentions, in order of appearance. */
  function References(filter: Filter, qualifier: Option<string>): (refs: seq<Reference>)
  {
    match filter
    case Or(l, r) => References(l, qualifier) + References(r, qualifier)
    case Not(inner) => References(inner, qualifier)
    case And(l, r) =>
      var owner := OrElse(PackageOf(l), OrElse(PackageOf(r), qualifier));
      References(l, owner) + References(r, owner)
    case Predicate(name, arg) =>
      match name
      case PackageName => [PackageRef(arg)]
      case BinaryName => [BinaryRef(arg, qualifier)]
      case KindName => []
  }

  /** The two subjects cannot be told apart by a name in `refs`. */
  predicate Agree(refs: seq<Reference>, a: Subject, b: Subject)
  {
    forall r | r in refs ::
      if r.PackageRef? then (a.package == r.package) == (b.package == r.package)
      else (a.binary == r.binary) == (b.binary == r.binary)
  }

  /**
   The references are complete: subjects of the same kind that agree on every name listed are selected
   alike, whatever qualifier the listing started from.
   */
  lemma {:induction false} ReferencesComplete(filter: Filter, qualifier: Option<string>, a: Subject, b: Subject)
    requires a.unit == b.unit && Agree(References(filter, qualifier), a, b)
    ensures Matches(filter, a) == Matches(filter, b)
  {
    match filter
    case Or(l, r) =>
      ReferencesComplete(l, qualifier, a, b);
      ReferencesComplete(r, qualifier, a, b);
    case And(l, r) =>
      var owner := OrElse(PackageOf(l), OrElse(PackageOf(r), qualifier));
      ReferencesComplete(l, owner, a, b);
      ReferencesComplete(r, owner, a, b);
    case Not(inner) =>
      ReferencesComplete(inner, qualifier, a, b);
    case Predicate(name, arg) =>
      assert name == PackageName ==> References(filter, qualifier)[0] == PackageRef(arg);
      assert name == BinaryName ==> References(filter, qualifier)[0] == BinaryRef(arg, qualifier);
  }

  /** Predicates joined by `and` alone. */
  predicate IsConjunction(filter: Filter)
  {
    match filter
    case And(l, r) => IsConjunction(l) && IsConjunction(r)
    case Predicate(_, _) => true
    case _ => false
  }

  /** A target matches a reference. */
  predicate Fits(r: Reference, t: Subject)
  {
    if r.PackageRef? then t.package == r.package
    else t.binary == r.binary && (r.owner.None? || t.package == r.owner.value)
  }

  /** Whatever a conjunction selects matches every name it lists, qualified as listed. */
  lemma {:induction false} SelectedFitsNames(filter: Filter, qualifier: Option<string>, t: Subject)
    requires IsConjunction(filter) && Matches(filter, t) && (qualifier.None? || t.package == qualifier.value)
    ensures forall r | r in References(filter, qualifier) :: Fits(r, t)
  {
    if filter.And? {
      var owner := OrElse(PackageOf(filter.left), OrElse(PackageOf(filter.right), qualifier));
      SelectedFitsNames(filter.left, owner, t);
      SelectedFitsNames(filter.right, owner, t);
    }
  }

  /** A package and a binary joined by `and`, in either order, select what matches both names, qualified. */
  lemma QualifiedPairSelectsIff(package: string, binary: string, packageFirst: bool, t: Subject)
    ensures var p, b := Predicate(PackageName, package), Predicate(BinaryName, binary);
      var filter := if packageFirst then And(p, b) else And(b, p);
      && BinaryRef(binary, Some(package)) in References(filter, None)
      && (Matches(filter, t) <==> forall r | r in References(filter, None) :: Fits(r, t))
  {
    var p, b := Predicate(PackageName, package), Predicate(BinaryName, binary);
    var filter := if packageFirst then And(p, b) else And(b, p);
    var refs := References(filter, None);
    assert References(p, Some(package)) == [PackageRef(package)];
    assert References(b, Some(package)) == [BinaryRef(binary, Some(package))];
    assert refs == if packageFirst then [PackageRef(package), BinaryRef(binary, Some(package))]
                   else [BinaryRef(binary, Some(package)), PackageRef(package)];
    var x, y := PackageRef(package), BinaryRef(binary, Some(package));
    assert x in refs && y in refs && forall r | r in refs :: r == x || r == y;
    assert Matches(p, t) && Matches(b, t) <==> Fits(x, t) && Fits(y, t);
  }

  // ----- which package qualifies a binary -----

  /** The part of a filter that a path of left and right turns leads to. */
  function Part(filter: Filter, path: seq<bool>): (part: Option<Filter>)
    decreases |path|
  {
    if path == [] then Some(filter)
    else
      match filter
      case Or(l, r) => Part(if path[0] then r else l, path[1..])
      case And(l, r) => Part(if path[0] then r else l, path[1..])
      case Not(inner) => if path[0] then None else Part(inner, path[1..])
      case Predicate(_, _) => None
  }

  /** The package that an `and` names as one of its sides, the left one first. */
  function PackageNamed(filter: Filter): (package: Option<string>)
  {
    if filter.And? then OrElse(PackageOf(filter.left), PackageOf(filter.right)) else None
  }

  /** Above the end of the path, after `n` turns, stands an `and` that names `package`. */
  predicate NamesAbove(filter: Filter, path: seq<bool>, n: nat, package: string)
  {
    n < |path| && Part(filter, path[..n]).Some? && PackageNamed(Part(filter, path[..n]).value) == Some(package)
  }

  /** No such `and` stands further in. */
  ghost predicate Innermost(filter: Filter, path: seq<bool>, n: nat, package: string)
  {
    NamesAbove(filter, path, n, package) && forall m: nat, other | n < m :: !NamesAbove(filter, path, m, other)
  }

  ghost predicate NoneNames(filter: Filter, path: seq<bool>)
  {
    forall n: nat, package :: !NamesAbove(filter, path, n, package)
  }

  /** `owner` is what the innermost such `and` names, or `qualifier` if there is none. */
  ghost predicate Owned(filter: Filter, path: seq<bool>, qualifier: Option<string>, owner: Option<string>)
  {
    || (NoneNames(filter, path) && owner == qualifier)
    || (owner.Some? && exists n: nat :: Innermost(filter, path, n, owner.value))
  }

  lemma NamesBelow(filter: Filter, child: Filter, turn: bool, path: seq<bool>, n: nat, package: string)
    requires Part(filter, [turn]) == Some(child)
    ensures NamesAbove(filter, [turn] + path, n + 1, package) <==> NamesAbove(child, path, n, package)
  {
    if n < |path| {
      assert ([turn] + path)[..n + 1] == [turn] + path[..n];
      assert ([turn] + path[..n])[1..] == path[..n];
    }
  }

  lemma InnermostBelow(filter: Filter, child: Filter, turn: bool, path: seq<bool>, n: nat, package: string)
    requires Part(filter, [turn]) == Some(child)
    ensures Innermost(filter, [turn] + path, n + 1, package) <==> Innermost(child, path, n, package)
    ensures Innermost(filter, [turn] + path, 0, package) <==>
      PackageNamed(filter) == Some(package) && NoneNames(child, path)
  {
    forall m: nat, other
      ensures NamesAbove(filter, [turn] + path, m + 1, other) <==> NamesAbove(child, path, m, other)
    {
      NamesBelow(filter, child, turn, path, m, other);
    }
    forall m: nat, other | m > 0
      ensures NamesAbove(filter, [turn] + path, m, other) <==> NamesAbove(child, path, m - 1, other)
    {
      NamesBelow(filter, child, turn, path, m - 1, other);
    }
    assert NamesAbove(filter, [turn] + path, 0, package) <==> PackageNamed(filter) == Some(package);
  }

  lemma NoneBelow(filter: Filter, child: Filter, turn: bool, path: seq<bool>)
    requires Part(filter, [turn]) == Some(child)
    ensures NoneNames(filter, [turn] + path) <==> PackageNamed(filter).None? && NoneNames(child, path)
  {
    if NoneNames(filter, [turn] + path) {
      assert PackageNamed(filter).Some? ==> NamesAbove(filter, [turn] + path, 0, PackageNamed(filter).value);
      forall n: nat, package ensures !NamesAbove(child, path, n, package) {
        NamesBelow(filter, child, turn, path, n, package);
      }
    }
    if PackageNamed(filter).None? && NoneNames(child, path) {
      forall n: nat, package ensures !NamesAbove(filter, [turn] + path, n, package) {
        if n > 0 {
          NamesBelow(filter, child, turn, path, n - 1, package);
        }
      }
    }
  }

  lemma OwnedBelow(filter: Filter, child: Filter, turn: bool, path: seq<bool>, qualifier: Option<string>,
                   owner: Option<string>)
    requires Part(filter, [turn]) == Some(child)
    ensures Owned(filter, [turn] + path, qualifier, owner)
       <==> Owned(child, path, OrElse(PackageNamed(filter), qualifier), owner)
  {
    NoneBelow(filter, child, turn, path);
    if owner.Some? {
      forall n: nat
        ensures Innermost(filter, [turn] + path, n + 1, owner.value) <==> Innermost(child, path, n, owner.value)
      {
        InnermostBelow(filter, child, turn, path, n, owner.value);
      }
      InnermostBelow(filter, child, turn, path, 0, owner.value);
      if n: nat :| Innermost(filter, [turn] + path, n, owner.value) {
        assert n > 0 ==> Innermost(child, path, n - 1, owner.value);
      }
      if n: nat :| Innermost(child, path, n, owner.value) {
        assert Innermost(filter, [turn] + path, n + 1, owner.value);
      }
    }
  }

  /** `path` leads to `binary(name)`, whose package is `owner`. */
  ghost predicate LeadsTo(filter: Filter, path: seq<bool>, qualifier: Option<string>, name: string, owner: Option<string>)
  {
    Part(filter, path) == Some(Predicate(BinaryName, name)) && Owned(filter, path, qualifier, owner)
  }

  lemma LeadsBelow(filter: Filter, child: Filter, turn: bool, path: seq<bool>, qualifier: Option<string>,
                   name: string, owner: Option<string>)
    requires Part(filter, [turn]) == Some(child)
    ensures LeadsTo(filter, [turn] + path, qualifier, name, owner)
       <==> LeadsTo(child, path, OrElse(PackageNamed(filter), qualifier), name, owner)
  {
    assert ([turn] + path)[1..] == path;
    OwnedBelow(filter, child, turn, path, qualifier, owner);
  }

  /** A listed binary stands somewhere in the filter, with the package of the innermost `and` above it that names one. */
  lemma {:induction false} ListedStands(filter: Filter, qualifier: Option<string>, name: string, owner: Option<string>)
    returns (path: seq<bool>)
    requires BinaryRef(name, owner) in References(filter, qualifier)
    ensures LeadsTo(filter, path, qualifier, name, owner)
    decreases filter
  {
    if filter.Predicate? {
      path := [];
    } else {
      var below := OrElse(PackageNamed(filter), qualifier);
      var right := !filter.Not? && BinaryRef(name, owner) !in References(filter.left, below);
      var child := if filter.Not? then filter.inner else if right then filter.right else filter.left;
      path := ListedStands(child, below, name, owner);
      assert [right][1..] == [];
      LeadsBelow(filter, child, right, path, qualifier, name, owner);
      path := [right] + path;
    }
  }

  lemma {:induction false} StandingIsListed(filter: Filter, path: seq<bool>, qualifier: Option<string>,
                                            name: string, owner: Option<string>)
    requires LeadsTo(filter, path, qualifier, name, owner)
    ensures BinaryRef(name, owner) in References(filter, qualifier)
    decreases |path|
  {
    if path != [] {
      var turn := path[0];
      var child := if filter.Not? then filter.inner else if turn then filter.right else filter.left;
      assert path == [turn] + path[1..] && [turn][1..] == [];
      LeadsBelow(filter, child, turn, path[1..], qualifier, name, owner);
      StandingIsListed(child, path[1..], OrElse(PackageNamed(filter), qualifier), name, owner);
    }
  }

  /**
   A filter lists a binary with an owner if and only if the binary stands in it and the innermost `and` above it
   that has a package as one of its sides, through any `or` and `not` between, names that owner; and with none if
   there is no such `and`.
   */
  lemma ListedIff(filter: Filter, name: string, owner: Option<string>)
    ensures BinaryRef(name, owner) in References(filter, None) <==>
      exists path :: LeadsTo(filter, path, None, name, owner)
  {
    if BinaryRef(name, owner) in References(filter, None) {
      var path := ListedStands(filter, None, name, owner);
    }
    if path :| LeadsTo(filter, path, None, name, owner) {
      StandingIsListed(filter, path, None, name, owner);
    }
  }

  // ----- sorted sets of names -----

  /** Strictly before, character by character. */
  predicate Before(a: string, b: string)
  {
    b != [] && (a == [] || a[0] < b[0] || (a[0] == b[0] && Before(a[1..], b[1..])))
  }

  predicate Ascending(s: seq<string>)
  {
    forall i | 0 < i < |s| :: Before(s[i - 1], s[i])
  }

  lemma {:induction false} BeforeTotal(a: string, b: string)
    ensures a == b || Before(a, b) || Before(b, a)
  {
    if a != [] && b != [] && a[0] == b[0] {
      BeforeTotal(a[1..], b[1..]);
      assert a == [a[0]] + a[1..] && b == [b[0]] + b[1..];
    }
  }

  function Insert(x: string, s: seq<string>): (r: seq<string>)
    requires Ascending(s)
    ensures forall y :: y in r <==> y == x || y in s
    ensures Ascending(r) && r != [] && (r[0] == x || (s != [] && r[0] == s[0]))
  {
    if s == [] || Before(x, s[0]) then [x] + s
    else if x == s[0] then s
    else
      BeforeTotal(x, s[0]);
      [s[0]] + Insert(x, s[1..])
  }

  /** The names without repetition, in ascending order. */
  function SortedSet(names: seq<string>): (r: seq<string>)
    ensures Ascending(r) && forall y :: y in r <==> y in names
  {
    if names == [] then [] else Insert(names[0], SortedSet(names[1..]))
  }

  // ----- the plan -----

  datatype Plan = Plan(packages: seq<string>, tests: seq<string>, args: seq<string>)

  datatype PlanError =
    | BadFilterset(error: FilterError)
    | NamesNothing(reference: Reference)
    | SelectsUnitTests(units: seq<Subject>)
    | SelectsNothing

  predicate Found(r: Reference, targets: seq<Subject>)
  {
    exists t | t in targets :: Fits(r, t)
  }

  /** The first reference that matches no target. */
  function FirstMissing(refs: seq<Reference>, targets: seq<Subject>): (r: Option<Reference>)
    ensures r.None? <==> forall x | x in refs :: Found(x, targets)
    ensures r.Some? ==> r.value in refs && !Found(r.value, targets)
  {
    if refs == [] then None
    else if !Found(refs[0], targets) then Some(refs[0])
    else FirstMissing(refs[1..], targets)
  }

  function Selected(filter: Filter, subjects: seq<Subject>): (s: seq<Subject>)
  {
    Keep(subject => Matches(filter, subject), subjects)
  }

  function Packages(subjects: seq<Subject>): (names: seq<string>)
  {
    seq(|subjects|, i requires 0 <= i < |subjects| => subjects[i].package)
  }

  function Binaries(subjects: seq<Subject>): (names: seq<string>)
  {
    seq(|subjects|, i requires 0 <= i < |subjects| => subjects[i].binary)
  }

  /** `flag name` for each name. */
  function Flagged(flag: string, names: seq<string>): (args: seq<string>)
  {
    if names == [] then [] else [flag, names[0]] + Flagged(flag, names[1..])
  }

  /** `e2eArchivePlan`. */
  function ArchivePlan(filterset: string, targets: seq<Subject>, units: seq<Subject>): (r: Result<Plan, PlanError>)
  {
    match Parse(filterset)
    case Err(e) => Err(BadFilterset(e))
    case Ok(filter) =>
      var missing := FirstMissing(References(filter, None), targets);
      if missing.Some? then Err(NamesNothing(missing.value))
      else if Selected(filter, units) != [] then Err(SelectsUnitTests(Selected(filter, units)))
      else if Selected(filter, targets) == [] then Err(SelectsNothing)
      else
        var packages := SortedSet(Packages(Selected(filter, targets)));
        var tests := SortedSet(Binaries(Selected(filter, targets)));
        Ok(Plan(packages, tests, Flagged("-p", packages) + Flagged("--test", tests)))
  }

  /** The arguments hold `flag name`, as a pair. */
  ghost predicate Passes(args: seq<string>, flag: string, name: string)
  {
    exists i :: 0 <= i && 2 * i + 1 < |args| && args[2 * i] == flag && args[2 * i + 1] == name
  }

  lemma {:induction false} FlaggedPairs(flag: string, names: seq<string>, i: nat)
    requires i < |names|
    ensures |Flagged(flag, names)| == 2 * |names|
    ensures Flagged(flag, names)[2 * i] == flag && Flagged(flag, names)[2 * i + 1] == names[i]
  {
    if i > 0 {
      FlaggedPairs(flag, names[1..], i - 1);
    } else if |names| > 1 {
      FlaggedPairs(flag, names[1..], 0);
    }
  }

  lemma ArgAt(plan: Plan, i: nat)
    requires plan.args == Flagged("-p", plan.packages) + Flagged("--test", plan.tests) && 2 * i + 1 < |plan.args|
    ensures if i < |plan.packages| then plan.args[2 * i] == "-p" && plan.args[2 * i + 1] in plan.packages
            else plan.args[2 * i] == "--test" && plan.args[2 * i + 1] in plan.tests
  {
    FlaggedLength("-p", plan.packages);
    FlaggedLength("--test", plan.tests);
    if i < |plan.packages| {
      FlaggedPairs("-p", plan.packages, i);
    } else {
      FlaggedPairs("--test", plan.tests, i - |plan.packages|);
    }
  }

  lemma {:induction false} FlaggedLength(flag: string, names: seq<string>)
    ensures |Flagged(flag, names)| == 2 * |names|
  {
    if names != [] {
      FlaggedLength(flag, names[1..]);
    }
  }

  /** The arguments pass exactly the packages and the tests of the plan. */
  lemma ArgsName(plan: Plan, name: string)
    requires plan.args == Flagged("-p", plan.packages) + Flagged("--test", plan.tests)
    ensures Passes(plan.args, "-p", name) <==> name in plan.packages
    ensures Passes(plan.args, "--test", name) <==> name in plan.tests
  {
    forall i: nat | 2 * i + 1 < |plan.args|
      ensures if i < |plan.packages| then plan.args[2 * i] == "-p" && plan.args[2 * i + 1] in plan.packages
              else plan.args[2 * i] == "--test" && plan.args[2 * i + 1] in plan.tests
    {
      ArgAt(plan, i);
    }
    assert |"-p"| != |"--test"|;
    if name in plan.packages {
      var i :| 0 <= i < |plan.packages| && plan.packages[i] == name;
      FlaggedPairs("-p", plan.packages, i);
      assert plan.args[2 * i] == "-p" && plan.args[2 * i + 1] == name;
    }
    if name in plan.tests {
      var i :| 0 <= i < |plan.tests| && plan.tests[i] == name;
      FlaggedPairs("--test", plan.tests, i);
      if plan.packages != [] {
        FlaggedPairs("-p", plan.packages, 0);
      }
      var k := |plan.packages| + i;
      assert plan.args[2 * k] == "--test" && plan.args[2 * k + 1] == name;
    }
  }

  /**
   No test falls between the filter and its complement: of every plan made, each test binary of the
   workspace is either left to the other leg by the filter's complement, or is an integration target
   whose package and name the arguments carry.
   */
  lemma PlanCoversSelection(filterset: string, targets: seq<Subject>, units: seq<Subject>, x: Subject)
    requires ArchivePlan(filterset, targets, units).Ok? && (x in targets || x in units)
    ensures Parse(filterset).Ok?
    ensures var filter, plan := Parse(filterset).value, ArchivePlan(filterset, targets, units).value;
      Matches(Not(filter), x)
      || (x in targets && Passes(plan.args, "-p", x.package) && Passes(plan.args, "--test", x.binary))
  {
    var filter, plan := Parse(filterset).value, ArchivePlan(filterset, targets, units).value;
    if Matches(filter, x) {
      assert x !in Selected(filter, units);
      var selected := Selected(filter, targets);
      assert x in selected;
      var i :| 0 <= i < |selected| && selected[i] == x;
      assert Packages(selected)[i] == x.package && Binaries(selected)[i] == x.binary;
      ArgsName(plan, x.package);
      ArgsName(plan, x.binary);
    }
  }

  /** So a conjunction that selects a target is never refused for a name that matches nothing. */
  lemma ConjunctionNamesFound(filter: Filter, targets: seq<Subject>, t: Subject)
    requires IsConjunction(filter) && t in targets && Matches(filter, t)
    ensures FirstMissing(References(filter, None), targets) == None
  {
    SelectedFitsNames(filter, None, t);
  }

  /** No target has the name, in the package that qualifies it if one does. */
  predicate Nowhere(r: Reference, targets: seq<Subject>)
  {
    match r
    case PackageRef(package) => forall t | t in targets :: t.package != package
    case BinaryRef(binary, None) => forall t | t in targets :: t.binary != binary
    case BinaryRef(binary, Some(owner)) => forall t | t in targets :: t.binary != binary || t.package != owner
  }

  /**
   Why a plan is refused, in this order: the filterset does not parse; a name it lists is nowhere, and the first
   such name is reported; it selects unit-test binaries, and these are reported; it selects nothing.
   */
  lemma RefusedFor(filterset: string, targets: seq<Subject>, units: seq<Subject>, i: nat)
    ensures Parse(filterset).Err? ==> ArchivePlan(filterset, targets, units) == Err(BadFilterset(Parse(filterset).error))
    ensures Parse(filterset).Ok? ==>
      var filter, plan := Parse(filterset).value, ArchivePlan(filterset, targets, units);
      var refs := References(filter, None);
      && (i < |refs| && Nowhere(refs[i], targets) && (forall j | 0 <= j < i :: !Nowhere(refs[j], targets)) ==>
            plan == Err(NamesNothing(refs[i])))
      && ((forall r | r in refs :: !Nowhere(r, targets)) ==>
            if exists u | u in units :: Matches(filter, u)
            then plan == Err(SelectsUnitTests(Keep(u => Matches(filter, u), units)))
            else if forall t | t in targets :: !Matches(filter, t) then plan == Err(SelectsNothing) else plan.Ok?)
  {
    if Parse(filterset).Ok? {
      var filter := Parse(filterset).value;
      forall r ensures Nowhere(r, targets) <==> !Found(r, targets) { NowhereIsMissing(r, targets); }
      var refs := References(filter, None);
      if i < |refs| && Nowhere(refs[i], targets) && (forall j | 0 <= j < i :: !Nowhere(refs[j], targets)) {
        FirstMissingIs(refs, targets, i);
      }
      SomeSelected(filter, units);
      SomeSelected(filter, targets);
    }
  }

  lemma NowhereIsMissing(r: Reference, targets: seq<Subject>)
    ensures Nowhere(r, targets) <==> !Found(r, targets)
  {
  }

  lemma {:induction false} FirstMissingIs(refs: seq<Reference>, targets: seq<Subject>, i: nat)
    requires i < |refs| && !Found(refs[i], targets) && forall j | 0 <= j < i :: Found(refs[j], targets)
    ensures FirstMissing(refs, targets) == Some(refs[i])
  {
    if i > 0 {
      FirstMissingIs(refs[1..], targets, i - 1);
    }
  }

  lemma SomeSelected(filter: Filter, subjects: seq<Subject>)
    ensures Selected(filter, subjects) == [] <==> forall t | t in subjects :: !Matches(filter, t)
  {
    var selected := Selected(filter, subjects);
    if selected != [] {
      assert selected[0] in selected;
    }
  }

  /**
   A plan is made exactly when the filterset parses, every name it mentions matches a target, it selects
   no unit-test binary and it selects something; and then it names the selected targets' packages and
   tests only, each once.
   */
  lemma PlanMadeIff(filterset: string, targets: seq<Subject>, units: seq<Subject>)
    ensures ArchivePlan(filterset, targets, units).Ok? <==>
      && Parse(filterset).Ok?
      && (forall r | r in References(Parse(filterset).value, None) :: Found(r, targets))
      && (forall u | u in units :: !Matches(Parse(filterset).value, u))
      && (exists t | t in targets :: Matches(Parse(filterset).value, t))
    ensures ArchivePlan(filterset, targets, units).Ok? ==>
      var filter, plan := Parse(filterset).value, ArchivePlan(filterset, targets, units).value;
      && Ascending(plan.packages) && Ascending(plan.tests)
      && (forall p | p in plan.packages :: exists t | t in targets :: Matches(filter, t) && t.package == p)
      && (forall b | b in plan.tests :: exists t | t in targets :: Matches(filter, t) && t.binary == b)
  {
    if Parse(filterset).Ok? {
      var filter := Parse(filterset).value;
      var selected := Selected(filter, targets);
      if selected != [] {
        assert selected[0] in selected;
      }
      if Selected(filter, units) != [] {
        assert Selected(filter, units)[0] in Selected(filter, units);
      }
      forall p | p in Packages(selected) ensures exists t | t in targets :: Matches(filter, t) && t.package == p {
        var i :| 0 <= i < |selected| && Packages(selected)[i] == p;
        assert selected[i] in targets && Matches(filter, selected[i]);
      }
      forall b | b in Binaries(selected) ensures exists t | t in targets :: Matches(filter, t) && t.binary == b {
        var i :| 0 <= i < |selected| && Binaries(selected)[i] == b;
        assert selected[i] in targets && Matches(filter, selected[i]);
      }
    }
  }

  // ----- what else a plan builds -----

  /** A target is built when both its package and its name are passed. */
  ghost predicate Builds(plan: Plan, t: Subject)
  {
    Passes(plan.args, "-p", t.package) && Passes(plan.args, "--test", t.binary)
  }

  /**
   A plan builds selected targets only if and only if the selection is closed under pairing a selected
   target's package with a selected target's name.
   */
  lemma BuildsOnlySelectedIff(filterset: string, targets: seq<Subject>, units: seq<Subject>)
    requires ArchivePlan(filterset, targets, units).Ok?
    ensures Parse(filterset).Ok?
    ensures var filter, plan := Parse(filterset).value, ArchivePlan(filterset, targets, units).value;
      (forall t | t in targets :: Builds(plan, t) ==> Matches(filter, t)) <==>
      forall x, y, t | x in targets && y in targets && t in targets && Matches(filter, x) && Matches(filter, y) ::
        t.package == x.package && t.binary == y.binary ==> Matches(filter, t)
  {
    var filter, plan := Parse(filterset).value, ArchivePlan(filterset, targets, units).value;
    forall t: Subject ensures Builds(plan, t) <==> Paired(filter, targets, t) {
      BuildsPaired(filterset, targets, units, t);
    }
    forall x, y, t: Subject | x in targets && y in targets && Matches(filter, x) && Matches(filter, y)
                     && t.package == x.package && t.binary == y.binary
      ensures Paired(filter, targets, t)
    {
    }
  }

  /** The target's package is a selected target's, and so is its name. */
  ghost predicate Paired(filter: Filter, targets: seq<Subject>, t: Subject)
  {
    && (exists x | x in targets :: Matches(filter, x) && t.package == x.package)
    && (exists y | y in targets :: Matches(filter, y) && t.binary == y.binary)
  }

  lemma PairedIsBuilt(filterset: string, targets: seq<Subject>, units: seq<Subject>, t: Subject)
    requires ArchivePlan(filterset, targets, units).Ok? && Parse(filterset).Ok?
    requires Paired(Parse(filterset).value, targets, t)
    ensures Builds(ArchivePlan(filterset, targets, units).value, t)
  {
    var filter, plan := Parse(filterset).value, ArchivePlan(filterset, targets, units).value;
    ArgsName(plan, t.package);
    ArgsName(plan, t.binary);
    var x :| x in targets && Matches(filter, x) && t.package == x.package;
    PlanCoversSelection(filterset, targets, units, x);
    var y :| y in targets && Matches(filter, y) && t.binary == y.binary;
    PlanCoversSelection(filterset, targets, units, y);
  }

  lemma BuiltIsPaired(filterset: string, targets: seq<Subject>, units: seq<Subject>, t: Subject)
    requires ArchivePlan(filterset, targets, units).Ok? && Parse(filterset).Ok?
    requires Builds(ArchivePlan(filterset, targets, units).value, t)
    ensures Paired(Parse(filterset).value, targets, t)
  {
    var plan := ArchivePlan(filterset, targets, units).value;
    ArgsName(plan, t.package);
    ArgsName(plan, t.binary);
    PlanMadeIff(filterset, targets, units);
  }

  lemma BuildsPaired(filterset: string, targets: seq<Subject>, units: seq<Subject>, t: Subject)
    requires ArchivePlan(filterset, targets, units).Ok?
    ensures Parse(filterset).Ok?
    ensures Builds(ArchivePlan(filterset, targets, units).value, t) <==> Paired(Parse(filterset).value, targets, t)
  {
    if Builds(ArchivePlan(filterset, targets, units).value, t) {
      BuiltIsPaired(filterset, targets, units, t);
    } else if Paired(Parse(filterset).value, targets, t) {
      PairedIsBuilt(filterset, targets, units, t);
    }
  }

  /** `package(a) and binary(x) or package(b) and binary(y)`. */
  function TwoPairs(): Filter
  {
    Or(And(Predicate(PackageName, "a"), Predicate(BinaryName, "x")),
       And(Predicate(PackageName, "b"), Predicate(BinaryName, "y")))
  }

  /** The condition is needed: a test of two packages, selected in one, is built in the other as well. */
  lemma BuildsUnselected(targets: seq<Subject>, bare: string -> bool)
    requires targets == [Subject("a", "x", false), Subject("b", "x", false), Subject("b", "y", false)]
    ensures ArchivePlan(Print(TwoPairs(), bare), targets, []).Ok?
    ensures Builds(ArchivePlan(Print(TwoPairs(), bare), targets, []).value, targets[1])
    ensures !Matches(TwoPairs(), targets[1])
  {
    assert targets[0] in targets && targets[1] in targets && targets[2] in targets;
    TwoPairsExact();
    ParseUndoesPrint(TwoPairs(), bare);
    BuiltBeside(Print(TwoPairs(), bare), targets);
  }

  lemma TwoPairsExact()
    ensures IsExactFilter(TwoPairs())
  {
    assert IsExact("a") && IsExact("x") && IsExact("b") && IsExact("y");
  }

  lemma BuiltBeside(text: string, targets: seq<Subject>)
    requires Parse(text) == Ok(TwoPairs())
    requires Subject("a", "x", false) in targets && Subject("b", "y", false) in targets
    ensures ArchivePlan(text, targets, []).Ok? && Builds(ArchivePlan(text, targets, []).value, Subject("b", "x", false))
  {
    var filter, x, y := TwoPairs(), Subject("a", "x", false), Subject("b", "y", false);
    assert Matches(filter, x) && Matches(filter, y);
    NamesOfTwo(filter, targets);
    PlanMadeIff(text, targets, []);
    BuildsPaired(text, targets, [], Subject("b", "x", false));
  }

  lemma NamesOfTwo(filter: Filter, targets: seq<Subject>)
    requires filter == TwoPairs()
    requires Subject("a", "x", false) in targets && Subject("b", "y", false) in targets
    ensures forall r | r in References(filter, None) :: Found(r, targets)
  {
    SelectedFitsNames(filter.left, None, Subject("a", "x", false));
    SelectedFitsNames(filter.right, None, Subject("b", "y", false));
  }
}
