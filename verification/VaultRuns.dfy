/** Every sequence of connects, links, renames, removals and default changes from an empty vault. */
module VaultRuns {
  import opened Basics
  import opened CommaList
  import opened ProviderAccounts
  import opened VaultStore
  import opened Defaults
  import opened Linking

  datatype Op =
    | Connect(wanted: Account, id: string, n: nat, now: nat)
    | Link(provider: string, identity: Identity, token: string, held: seq<Record>, at: nat)
    | Rename(provider: string, account: string, text: string)
    | RemoveRecord(provider: string, account: string)
    | SetDefaults(account: string, harnesses: seq<string>)

  /** The vault, and what the last link of each subject brought. */
  datatype State = State(vault: Vault, newest: map<(string, string), (string, string)>)

  function Empty(): State { State(map[], map[]) }

  function IdsOf(v: Vault): (ids: set<string>)
  {
    set k | k in v :: k.1
  }

  /** `held` lists what the vault holds at `provider`. */
  ghost predicate ListsAt(held: seq<Record>, v: Vault, provider: string)
  {
    && (forall r | r in held :: r.provider == provider && KeyOf(r) in v && v[KeyOf(r)] == r)
    && (forall k | k in v && k.0 == provider :: v[k] in held)
  }

  /**
   A connect stores an account of a preset under the id the store chose; a link is at a provider that is
   not a preset. Renames, removals and default changes are always possible.
   */
  ghost predicate Possible(st: State, op: Op)
  {
    match op
    case Connect(account, id, n, _) => IsPreset(account.preset) && IsUnclaimed(id, account.account, IdsOf(st.vault), n)
    case Link(provider, _, _, held, _) => !IsPreset(provider) && ListsAt(held, st.vault, provider)
    case _ => true
  }

  function Apply(st: State, op: Op): (st': State)
  {
    match op
    case Connect(account, id, _, now) => st.(vault := Put(st.vault, ToRecord(account.(account := id), now)))
    case Link(provider, identity, token, held, at) =>
      State(Put(st.vault, RecordForLink(held, provider, identity, token, at)),
            st.newest[(provider, identity.subjectId) := (token, identity.login)])
    case Rename(provider, account, text) => st.(vault := Relabelled(st.vault, provider, account, text))
    case RemoveRecord(provider, account) => st.(vault := st.vault - {(provider, account)})
    case SetDefaults(account, harnesses) => st.(vault := AdjustedVault(st.vault, account, harnesses))
  }

  ghost predicate Legal(st: State, ops: seq<Op>)
    decreases |ops|
  {
    ops == [] || (Possible(st, ops[0]) && Legal(Apply(st, ops[0]), ops[1..]))
  }

  function After(st: State, ops: seq<Op>): (st': State)
    decreases |ops|
  {
    if ops == [] then st else After(Apply(st, ops[0]), ops[1..])
  }

  // ----- the invariant -----

  /** A linked record carries its subject, the id derived from it, and what its last link brought. */
  predicate IsLinked(r: Record, newest: map<(string, string), (string, string)>)
  {
    && META_SUBJECT_ID in r.metadata && META_SUBJECT in r.metadata
    && var subjectId := r.metadata[META_SUBJECT_ID];
    && r.account == LinkedId(r.provider, subjectId)
    && (r.provider, subjectId) in newest
    && newest[(r.provider, subjectId)] == (r.secret, r.metadata[META_SUBJECT])
  }

  predicate RecordInv(r: Record, newest: map<(string, string), (string, string)>)
  {
    if IsPreset(r.provider) then META_SUBJECT_ID !in r.metadata else IsLinked(r, newest)
  }

  ghost predicate Inv(st: State)
  {
    && Keyed(st.vault)
    && (forall k | k in st.vault :: RecordInv(st.vault[k], st.newest))
    && DistinctIds(st.vault)
  }

  lemma SubjectKeysDiffer()
    ensures |META_SUBJECT_ID| == 10 && |META_SUBJECT| == 7
  {
  }

  lemma ConnectedRecord(a: Account, now: nat)
    requires IsPreset(a.preset)
    ensures META_SUBJECT_ID !in ToRecord(a, now).metadata
    ensures DefaultsOf(ToRecord(a, now)) == []
  {
    KeysDiffer();
    SubjectKeysDiffer();
    ReadUndoesWrite(a, now);
  }

  /** Putting a record, under an id of its own if it is an account. */
  lemma PutKeepsIds(v: Vault, r: Record)
    requires Keyed(v) && DistinctIds(v) && (IsAccount(r) ==> r.account !in IdsOf(v))
    ensures Keyed(Put(v, r)) && DistinctIds(Put(v, r))
  {
    var v' := Put(v, r);
    forall k1, k2 | k1 in v' && k2 in v' && IsAccount(v'[k1]) && IsAccount(v'[k2]) && k1.1 == k2.1
      ensures k1 == k2
    {
      assert k1 in v ==> k1.1 in IdsOf(v);
      assert k2 in v ==> k2.1 in IdsOf(v);
    }
  }

  lemma InvConnect(st: State, op: Op)
    requires Inv(st) && Possible(st, op) && op.Connect?
    ensures Inv(Apply(st, op))
  {
    var a := op.wanted.(account := op.id);
    ConnectedRecord(a, op.now);
    PutKeepsIds(st.vault, ToRecord(a, op.now));
  }

  /** What a link stores: the subject's one record, under the id derived from it. */
  lemma LinkRecord(st: State, op: Op)
    requires Inv(st) && Possible(st, op) && op.Link?
    ensures var r := RecordForLink(op.held, op.provider, op.identity, op.token, op.at);
      && KeyOf(r) == (op.provider, LinkedId(op.provider, op.identity.subjectId))
      && !IsAccount(r) && IsLinked(r, Apply(st, op).newest)
      && IsOf(r, op.provider, op.identity.subjectId)
      && (KeyOf(r) in st.vault ==> r.labelText == st.vault[KeyOf(r)].labelText)
  {
    SubjectKeysDiffer();
    KeysDiffer();
    var existing := FindSubject(op.held, op.provider, op.identity.subjectId);
    var key := (op.provider, LinkedId(op.provider, op.identity.subjectId));
    if key in st.vault {
      assert RecordInv(st.vault[key], st.newest);
      LinkedIdInjective(op.provider, st.vault[key].metadata[META_SUBJECT_ID], op.identity.subjectId);
    }
    if existing.Some? {
      assert RecordInv(st.vault[KeyOf(existing.value)], st.newest);
    }
  }

  lemma LinkedIdInjective(provider: string, a: string, b: string)
    requires LinkedId(provider, a) == LinkedId(provider, b)
    ensures a == b
  {
    assert LinkedId(provider, a)[|provider| + 1..] == a && LinkedId(provider, b)[|provider| + 1..] == b;
  }

  lemma InvLink(st: State, op: Op)
    requires Inv(st) && Possible(st, op) && op.Link?
    ensures Inv(Apply(st, op))
  {
    var r, st' := RecordForLink(op.held, op.provider, op.identity, op.token, op.at), Apply(st, op);
    LinkRecord(st, op);
    PutKeepsIds(st.vault, r);
    forall k | k in st'.vault ensures RecordInv(st'.vault[k], st'.newest) {
      if k != KeyOf(r) {
        assert RecordInv(st.vault[k], st.newest);
      }
    }
  }

  lemma Renamed(r: Record, text: string, newest: map<(string, string), (string, string)>)
    requires RecordInv(r, newest)
    ensures var r' := r.(labelText := text);
      RecordInv(r', newest) && IsAccount(r') == IsAccount(r) && DefaultsOf(r') == DefaultsOf(r)
  {
  }

  lemma InvRename(st: State, op: Op)
    requires Inv(st) && op.Rename?
    ensures Inv(Apply(st, op))
  {
    var k := (op.provider, op.account);
    if k in st.vault {
      Renamed(st.vault[k], op.text, st.newest);
    }
  }

  lemma InvRemove(st: State, op: Op)
    requires Inv(st) && op.RemoveRecord?
    ensures Inv(Apply(st, op))
  {
  }

  lemma InvSetDefaults(st: State, op: Op)
    requires Inv(st) && Possible(st, op) && op.SetDefaults?
    ensures Inv(Apply(st, op))
  {
    var v, st' := st.vault, Apply(st, op);
    forall k | k in v
      ensures KeyOf(st'.vault[k]) == k && RecordInv(st'.vault[k], st'.newest)
      ensures IsAccount(st'.vault[k]) == IsAccount(v[k])
    {
      assert RecordInv(v[k], st.newest);
      AdjustedInv(v[k], op.account, op.harnesses, st.newest);
    }
  }

  lemma AdjustedInv(r: Record, account: string, harnesses: seq<string>, newest: map<(string, string), (string, string)>)
    requires RecordInv(r, newest)
    ensures var r' := Adjusted(r, account, harnesses);
      RecordInv(r', newest) && KeyOf(r') == KeyOf(r) && IsAccount(r') == IsAccount(r)
  {
    AdjustedKeeps(r, account, harnesses);
    KeysDiffer();
    SubjectKeysDiffer();
    if META_SUBJECT_ID in Adjusted(r, account, harnesses).metadata {
      assert META_SUBJECT_ID in Adjusted(r, account, harnesses).metadata - {META_DEFAULT_FOR};
    }
  }

  lemma InvStep(st: State, op: Op)
    requires Inv(st) && Possible(st, op)
    ensures Inv(Apply(st, op))
  {
    match op
    case Connect(_, _, _, _) => InvConnect(st, op);
    case Link(_, _, _, _, _) => InvLink(st, op);
    case Rename(_, _, _) => InvRename(st, op);
    case RemoveRecord(_, _) => InvRemove(st, op);
    case SetDefaults(_, _) => InvSetDefaults(st, op);
  }

  lemma {:induction false} Reachable(st: State, ops: seq<Op>)
    requires Inv(st) && Legal(st, ops)
    ensures Inv(After(st, ops))
    decreases |ops|
  {
    if ops != [] {
      InvStep(st, ops[0]);
      Reachable(Apply(st, ops[0]), ops[1..]);
    }
  }

  // ----- one holder per harness -----

  /** No change of defaults in the run names a harness in pieces that another account holds just then. */
  ghost predicate Unhidden(st: State, ops: seq<Op>)
    decreases |ops|
  {
    ops != [] ==>
      && (ops[0].SetDefaults? ==> NoHiddenPiece(st.vault, ops[0].account, ops[0].harnesses))
      && Unhidden(Apply(st, ops[0]), ops[1..])
  }

  /** Whatever is not a change of defaults makes no record the holder of anything. */
  lemma NoNewHolder(st: State, op: Op, k: (string, string), h: string)
    requires Inv(st) && Possible(st, op) && !op.SetDefaults?
    ensures Holds(Apply(st, op).vault, k, h) ==> Holds(st.vault, k, h)
  {
    match op
    case Connect(wanted, id, _, now) => ConnectedRecord(wanted.(account := id), now);
    case Link(_, _, _, _, _) => LinkRecord(st, op);
    case Rename(provider, account, text) =>
      if (provider, account) in st.vault {
        Renamed(st.vault[(provider, account)], text, st.newest);
      }
    case RemoveRecord(_, _) =>
  }

  lemma HoldersStep(st: State, op: Op)
    requires Inv(st) && Possible(st, op) && OneHolder(st.vault) && Unhidden(st, [op])
    ensures OneHolder(Apply(st, op).vault)
  {
    if op.SetDefaults? {
      KeepsOneHolder(st.vault, op.account, op.harnesses);
    } else {
      var v' := Apply(st, op).vault;
      forall k1, k2, h | Holds(v', k1, h) && Holds(v', k2, h) ensures k1 == k2 {
        NoNewHolder(st, op, k1, h);
        NoNewHolder(st, op, k2, h);
      }
    }
  }

  lemma {:induction false} ReachableUnhidden(st: State, ops: seq<Op>)
    requires Inv(st) && OneHolder(st.vault) && Legal(st, ops) && Unhidden(st, ops)
    ensures OneHolder(After(st, ops).vault)
    decreases |ops|
  {
    if ops != [] {
      assert Unhidden(st, [ops[0]]);
      HoldersStep(st, ops[0]);
      InvStep(st, ops[0]);
      ReachableUnhidden(Apply(st, ops[0]), ops[1..]);
    }
  }

  // ----- every run -----

  /** In every run, two provider accounts never share an id. */
  lemma AccountIdsDistinct(ops: seq<Op>, k1: (string, string), k2: (string, string))
    requires Legal(Empty(), ops)
    ensures var v := After(Empty(), ops).vault;
      k1 in v && k2 in v && IsAccount(v[k1]) && IsAccount(v[k2]) && v[k1].account == v[k2].account ==> k1 == k2
  {
    Reachable(Empty(), ops);
  }

  /**
   In every run whose default changes hide no piece of a name, no harness has two default accounts; and the
   next change keeps it so if and only if it hides none either.
   */
  lemma OneDefaultPerHarness(ops: seq<Op>, account: string, harnesses: seq<string>, t: (string, string))
    requires Legal(Empty(), ops) && Unhidden(Empty(), ops)
    ensures var v := After(Empty(), ops).vault;
      && OneHolder(v)
      && (Names(v, t, account) ==>
            OneHolder(AdjustedVault(v, account, harnesses)) == NoHiddenPiece(v, account, harnesses))
  {
    Reachable(Empty(), ops);
    ReachableUnhidden(Empty(), ops);
    var v := After(Empty(), ops).vault;
    if Names(v, t, account) {
      OneHolderIff(v, account, harnesses, t);
    }
  }

  /** Clean names never hide a piece, so runs with clean names only are among those. */
  lemma {:induction false} CleanIsUnhidden(st: State, ops: seq<Op>)
    requires forall op | op in ops :: op.SetDefaults? ==> AllClean(op.harnesses)
    ensures Unhidden(st, ops)
    decreases |ops|
  {
    if ops != [] {
      assert ops[0] in ops && forall op | op in ops[1..] :: op in ops;
      if ops[0].SetDefaults? {
        CleanHidesNothing(st.vault, ops[0].account, ops[0].harnesses);
      }
      CleanIsUnhidden(Apply(st, ops[0]), ops[1..]);
    }
  }

  function Sample(id: string): Account { Account(id, "meta", "", Endpoints(None, None, None), "") }

  lemma TwoOps(st: State, a: Op, b: Op)
    requires Possible(st, a) && Possible(Apply(st, a), b)
    ensures Legal(st, [a, b]) && After(st, [a, b]) == Apply(Apply(st, a), b)
  {
    assert [a, b][1..] == [b] && [b][1..] == [];
    assert Legal(Apply(st, a), [b]) && After(Apply(st, a), [b]) == Apply(Apply(st, a), b);
  }

  lemma {:induction false} Concat(st: State, a: seq<Op>, b: seq<Op>)
    requires Legal(st, a) && Legal(After(st, a), b)
    ensures Legal(st, a + b) && After(st, a + b) == After(After(st, a), b)
    decreases |a|
  {
    if a == [] {
      assert a + b == b;
    } else {
      assert (a + b)[0] == a[0] && (a + b)[1..] == a[1..] + b;
      Concat(Apply(st, a[0]), a[1..], b);
    }
  }

  /** The hypothesis is needed: a run from the empty vault after which a harness has two default accounts. */
  lemma CommaRun(ops: seq<Op>)
    requires ops == [Connect(Sample("a"), "a", 1, 0), Connect(Sample("b"), "b", 1, 0)]
                    + [SetDefaults("a", ["x"]), SetDefaults("b", ["x" + "," + "y"])]
    ensures Legal(Empty(), ops) && !OneHolder(After(Empty(), ops).vault)
  {
    var connects := [Connect(Sample("a"), "a", 1, 0), Connect(Sample("b"), "b", 1, 0)];
    var changes := [SetDefaults("a", ["x"]), SetDefaults("b", ["x" + "," + "y"])];
    var st := TwoConnected();
    TwoOps(Empty(), connects[0], connects[1]);
    TwoOps(st, changes[0], changes[1]);
    Concat(Empty(), connects, changes);
    assert Clean("x");
    CommaChange(st.vault, ("meta", "a"), ("meta", "b"), "x", "y");
  }

  lemma CommaChange(v: Vault, t: (string, string), o: (string, string), x: string, y: string)
    requires Keyed(v) && DistinctIds(v) && OneHolder(v) && Names(v, t, t.1) && Names(v, o, o.1) && t.1 != o.1 && Clean(x)
    ensures !OneHolder(AdjustedVault(AdjustedVault(v, t.1, [x]), o.1, [x + "," + y]))
  {
    Given(v, t, o, x);
    CommaSharesAHarness(AdjustedVault(v, t.1, [x]), o, t, x, y);
  }

  lemma Connected(st: State, op: Op)
    requires Inv(st) && OneHolder(st.vault) && Possible(st, op) && op.Connect?
    ensures var v := Apply(st, op).vault;
      && Inv(Apply(st, op)) && OneHolder(v) && Names(v, (op.wanted.preset, op.id), op.id)
      && v.Keys == st.vault.Keys + {(op.wanted.preset, op.id)}
      && forall k | k in st.vault && k.1 != op.id :: v[k] == st.vault[k]
  {
    ReadUndoesWrite(op.wanted.(account := op.id), op.now);
    InvStep(st, op);
    HoldersStep(st, op);
  }

  /** Two accounts connected, nothing given. */
  lemma TwoConnected() returns (st: State)
    ensures var first := Apply(Empty(), Connect(Sample("a"), "a", 1, 0));
      && Possible(Empty(), Connect(Sample("a"), "a", 1, 0)) && Possible(first, Connect(Sample("b"), "b", 1, 0))
      && st == Apply(first, Connect(Sample("b"), "b", 1, 0))
    ensures Keyed(st.vault) && DistinctIds(st.vault) && OneHolder(st.vault)
    ensures Names(st.vault, ("meta", "a"), "a") && Names(st.vault, ("meta", "b"), "b")
  {
    var op1, op2 := Connect(Sample("a"), "a", 1, 0), Connect(Sample("b"), "b", 1, 0);
    var first := Apply(Empty(), op1);
    st := Apply(first, op2);
    Connected(Empty(), op1);
    Connected(first, op2);
  }

  lemma Given(v: Vault, t: (string, string), o: (string, string), x: string)
    requires Keyed(v) && DistinctIds(v) && OneHolder(v) && Names(v, t, t.1) && Names(v, o, o.1) && t.1 != o.1 && Clean(x)
    ensures var v' := AdjustedVault(v, t.1, [x]);
      Keyed(v') && DistinctIds(v') && OneHolder(v') && Names(v', o, o.1) && Holds(v', t, x)
  {
    CleanHidesNothing(v, t.1, [x]);
    KeepsOneHolder(v, t.1, [x]);
    SingleName([x]);
    PieceOfClean(x);
    AdjustedHolds(v, t.1, [x], t, x);
    forall k | k in v
      ensures KeyOf(Adjusted(v[k], t.1, [x])) == k && IsAccount(Adjusted(v[k], t.1, [x])) == IsAccount(v[k])
    {
      AdjustedKeeps(v[k], t.1, [x]);
    }
  }

  /** In every run, a connect replaces no record: it adds exactly one, which holds the account under its new id. */
  lemma ConnectAdds(ops: seq<Op>, op: Op)
    requires Legal(Empty(), ops) && op.Connect? && Possible(After(Empty(), ops), op)
    ensures var v, v' := After(Empty(), ops).vault, Apply(After(Empty(), ops), op).vault;
      && v.Keys < v'.Keys && |v'| == |v| + 1 && (forall k | k in v :: v'[k] == v[k])
      && var key := (op.wanted.preset, op.id);
         key in v' && FromRecord(v'[key]) == Some(op.wanted.(account := op.id))
  {
    var v := After(Empty(), ops).vault;
    ReadUndoesWrite(op.wanted.(account := op.id), op.now);
    var r := ToRecord(op.wanted.(account := op.id), op.now);
    if KeyOf(r) in v {
      assert false;
    }
    assert Put(v, r).Keys == v.Keys + {KeyOf(r)};
  }

  /** In every run, a rename changes one record's label and nothing else, and a removal takes exactly that record. */
  lemma RenameAndRemove(ops: seq<Op>, op: Op)
    requires Legal(Empty(), ops) && (op.Rename? || op.RemoveRecord?)
    ensures var st := After(Empty(), ops);
      var v, v', key := st.vault, Apply(st, op).vault, (op.provider, op.account);
      && v'.Keys == (if op.Rename? then v.Keys else v.Keys - {key})
      && (forall k | k in v' && k != key :: v'[k] == v[k])
      && (op.Rename? && key in v ==> v'[key] == v[key].(labelText := op.text))
      && Apply(st, op).newest == st.newest
  {
    Reachable(Empty(), ops);
  }

  /** In every run, a project whose account was removed is told that this host has none. */
  lemma RemovedIsUnknown(ops: seq<Op>, assignments: Assignments, i: nat, provider: string, account: string,
                         held: seq<Record>)
    requires Legal(Empty(), ops) && OnlyFor(assignments, provider, i) && assignments[i].1 == account
    requires Lists(held, Apply(After(Empty(), ops), RemoveRecord(provider, account)).vault)
    ensures ResolveAccount(assignments, provider, held) == UnknownOnThisHost(account)
  {
    ResolvedByEntries(assignments, provider, held);
    assert forall x | x in held :: KeyOf(x) != (provider, account);
  }

  /** In every run there is at most one record per provider and subject. */
  lemma OneRecordPerSubject(ops: seq<Op>, k1: (string, string), k2: (string, string), subjectId: string)
    requires Legal(Empty(), ops)
    ensures var v := After(Empty(), ops).vault;
      k1 in v && k2 in v && k1.0 == k2.0 && IsOf(v[k1], k1.0, subjectId) && IsOf(v[k2], k2.0, subjectId)
      ==> k1 == k2
  {
    Reachable(Empty(), ops);
    var st := After(Empty(), ops);
    if k1 in st.vault && k2 in st.vault {
      assert RecordInv(st.vault[k1], st.newest) && RecordInv(st.vault[k2], st.newest);
    }
  }

  /** The listing finds the subject's record exactly when the vault holds one under the derived id. */
  lemma FoundIsHeld(st: State, op: Op)
    requires Inv(st) && Possible(st, op) && op.Link?
    ensures var existing := FindSubject(op.held, op.provider, op.identity.subjectId);
      var key := (op.provider, LinkedId(op.provider, op.identity.subjectId));
      if key in st.vault then existing == Some(st.vault[key]) else existing == None
  {
    var existing := FindSubject(op.held, op.provider, op.identity.subjectId);
    var key := (op.provider, LinkedId(op.provider, op.identity.subjectId));
    if existing.Some? {
      assert RecordInv(st.vault[KeyOf(existing.value)], st.newest);
    }
    if key in st.vault {
      assert RecordInv(st.vault[key], st.newest);
      LinkedIdInjective(op.provider, st.vault[key].metadata[META_SUBJECT_ID], op.identity.subjectId);
      assert st.vault[key] in op.held;
    }
  }

  /** A linked-again record: same label, one version on, and no metadata but the login touched. */
  predicate Relinked(was: Record, r: Record)
  {
    && r.labelText == was.labelText
    && r.version == (if was.version >= MAX_VERSION then was.version else was.version + 1)
    && r.metadata - {META_SUBJECT} == was.metadata - {META_SUBJECT}
  }

  /** What a link makes of the subject's record, which may be new. */
  predicate LinkedAs(was: Option<Record>, op: Op, r: Record)
    requires op.Link?
  {
    && r.secret == op.token && r.updatedAt == op.at
    && IsOf(r, op.provider, op.identity.subjectId) && Lookup(r.metadata, META_SUBJECT) == Some(op.identity.login)
    && if was.Some? then Relinked(was.value, r)
       else && r.labelText == op.identity.login && r.version == FIRST_VERSION
            && r.metadata.Keys == {META_SUBJECT_ID, META_SUBJECT}
  }

  /** `v'` is `v` with one record, the subject's, new or linked again. */
  ghost predicate LinkedInto(v: Vault, op: Op, v': Vault)
    requires op.Link?
  {
    var key := (op.provider, op.provider + "-" + op.identity.subjectId);
    && v'.Keys == v.Keys + {key} && (forall k | k in v && k != key :: v'[k] == v[k])
    && LinkedAs(if key in v then Some(v[key]) else None, op, v'[key])
  }

  lemma LinkMakes(existing: Option<Record>, op: Op, r: Record)
    requires op.Link? && existing == FindSubject(op.held, op.provider, op.identity.subjectId)
    requires r == RecordForLink(op.held, op.provider, op.identity, op.token, op.at)
    ensures LinkedAs(existing, op, r)
  {
    SubjectKeysDiffer();
  }

  lemma LinkContents(st: State, op: Op)
    requires Inv(st) && Possible(st, op) && op.Link?
    ensures LinkedInto(st.vault, op, Apply(st, op).vault)
  {
    FoundIsHeld(st, op);
    LinkMakes(FindSubject(op.held, op.provider, op.identity.subjectId), op,
              RecordForLink(op.held, op.provider, op.identity, op.token, op.at));
    LinkRecord(st, op);
  }

  /**
   In every run, a link stores its token and login in the subject's one record, under the id derived from
   the subject; linking a subject again keeps the id, the label and all other metadata and counts one
   version on, and no other record changes.
   */
  lemma RelinkKeepsIdAndLabel(ops: seq<Op>, op: Op)
    requires Legal(Empty(), ops) && op.Link? && Possible(After(Empty(), ops), op)
    ensures var st := After(Empty(), ops); LinkedInto(st.vault, op, Apply(st, op).vault)
  {
    Reachable(Empty(), ops);
    LinkContents(After(Empty(), ops), op);
  }

  /**
   In every run, a project assigned a held subject's account acts with the token and under the login that
   subject's last link brought, whatever was renamed since and in whatever order the vault is listed.
   */
  lemma ActsAsNewestLink(ops: seq<Op>, assignments: Assignments, provider: string, i: nat, subjectId: string,
                         held: seq<Record>)
    requires Legal(Empty(), ops) && !IsPreset(provider)
    requires var st := After(Empty(), ops);
      && Lists(held, st.vault) && (provider, LinkedId(provider, subjectId)) in st.vault
    requires OnlyFor(assignments, provider, i) && assignments[i].1 == LinkedId(provider, subjectId)
    ensures var st, account := After(Empty(), ops), LinkedId(provider, subjectId);
      && (provider, subjectId) in st.newest
      && var (token, login) := st.newest[(provider, subjectId)];
         ActingIdentity(assignments, provider, held)
         == if subjectId == "" then Err(Unusable(provider, account, META_SUBJECT_ID))
            else if login == "" then Err(Unusable(provider, account, META_SUBJECT))
            else Ok(Acting(account, token,
                           GitIdentity(login, subjectId + "+" + login + "@users.noreply.github.com")))
  {
    Reachable(Empty(), ops);
    var st, account := After(Empty(), ops), LinkedId(provider, subjectId);
    var r := st.vault[(provider, account)];
    assert RecordInv(r, st.newest);
    LinkedIdInjective(provider, r.metadata[META_SUBJECT_ID], subjectId);
    ResolvedByFind(assignments, provider, i, held);
    assert r in held;
    assert FindRecord(held, (provider, account)) == Some(r);
  }

  /** A record stays where it is through anything but its removal. */
  lemma {:induction false} KeyStays(st: State, ops: seq<Op>, key: (string, string))
    requires key in st.vault
    requires forall op | op in ops :: op.RemoveRecord? ==> (op.provider, op.account) != key
    ensures key in After(st, ops).vault
    decreases |ops|
  {
    if ops != [] {
      assert ops[0] in ops && forall op | op in ops[1..] :: op in ops;
      KeyStays(Apply(st, ops[0]), ops[1..], key);
    }
  }

  /** A project resolved as assigned stays assigned through any operations but removing its account. */
  lemma AssignedStays(before: seq<Op>, ops: seq<Op>, assignments: Assignments, provider: string, account: string,
                      held: seq<Record>, heldAfter: seq<Record>)
    requires Legal(Empty(), before) && Legal(After(Empty(), before), ops)
    requires var st := After(Empty(), before); Lists(held, st.vault) && Lists(heldAfter, After(st, ops).vault)
    requires ResolveAccount(assignments, provider, held) == Assigned(account)
    requires forall op | op in ops :: op.RemoveRecord? ==> (op.provider, op.account) != (provider, account)
    ensures ResolveAccount(assignments, provider, heldAfter) == Assigned(account)
  {
    var st, key := After(Empty(), before), (provider, account);
    Reachable(Empty(), before);
    Reachable(st, ops);
    KeyStays(st, ops, key);
    var v := After(st, ops).vault;
    assert v[key] in heldAfter && KeyOf(v[key]) == key;
  }
}
