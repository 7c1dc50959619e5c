/** What choosing default accounts does to the records of a vault. */
module Defaults {
  import opened Basics
  import opened CommaList
  import opened ProviderAccounts
  import opened VaultStore

  predicate AllClean(harnesses: seq<string>)
  {
    forall h | h in harnesses :: Clean(h)
  }

  /** Rewriting a record's list of harnesses leaves the account it holds as it was. */
  lemma WithDefaultsKeeps(r: Record, after: seq<string>)
    ensures FromRecord(WithDefaults(r, after)) == FromRecord(r)
    ensures WithDefaults(r, after).metadata - {META_DEFAULT_FOR} == r.metadata - {META_DEFAULT_FOR}
  {
    KeysDiffer();
  }

  lemma WithDefaultsReads(r: Record, after: seq<string>)
    requires IsAccount(r)
    ensures DefaultsOf(WithDefaults(r, after)) == AllPieces(after)
  {
    WithDefaultsKeeps(r, after);
    PiecesOfJoin(after);
  }

  lemma DefaultsClean(r: Record)
    ensures AllClean(DefaultsOf(r)) && AllPieces(DefaultsOf(r)) == DefaultsOf(r)
  {
    if DefaultsOf(r) != [] {
      PiecesClean(r.metadata[META_DEFAULT_FOR]);
    }
    SplitUndoesJoin(DefaultsOf(r));
  }

  /** A change of defaults touches nothing of any record but its list of harnesses. */
  lemma AdjustedKeeps(r: Record, account: string, harnesses: seq<string>)
    ensures var r' := Adjusted(r, account, harnesses);
      && FromRecord(r') == FromRecord(r) && r'.(metadata := r.metadata) == r
      && r'.metadata - {META_DEFAULT_FOR} == r.metadata - {META_DEFAULT_FOR}
  {
    WithDefaultsKeeps(r, NewDefaults(r, account, harnesses));
  }

  /**
   That list is then the pieces of the given names for the account named, and for any other account what it
   was without those names.
   */
  lemma AdjustedReads(r: Record, account: string, harnesses: seq<string>)
    ensures IsAccount(Adjusted(r, account, harnesses)) == IsAccount(r)
    ensures DefaultsOf(Adjusted(r, account, harnesses)) ==
      if !IsAccount(r) then []
      else if r.account == account then AllPieces(Dedup(harnesses))
      else Without(DefaultsOf(r), harnesses)
  {
    AdjustedKeeps(r, account, harnesses);
    if IsAccount(r) {
      var after := NewDefaults(r, account, harnesses);
      DefaultsClean(r);
      WithDefaultsReads(r, after);
      if r.account != account {
        SplitUndoesJoin(after);
      }
    }
  }

  // ----- at most one holder per harness -----

  predicate Holds(v: Vault, k: (string, string), harness: string)
  {
    k in v && harness in DefaultsOf(v[k])
  }

  ghost predicate OneHolder(v: Vault)
  {
    forall k1, k2, h :: Holds(v, k1, h) && Holds(v, k2, h) ==> k1 == k2
  }

  ghost predicate DistinctIds(v: Vault)
  {
    forall k1, k2 | k1 in v && k2 in v :: IsAccount(v[k1]) && IsAccount(v[k2]) && k1.1 == k2.1 ==> k1 == k2
  }

  ghost predicate Names(v: Vault, t: (string, string), account: string)
  {
    t in v && IsAccount(v[t]) && t.1 == account
  }

  lemma AdjustedHolds(v: Vault, account: string, harnesses: seq<string>, k: (string, string), h: string)
    requires Keyed(v)
    ensures Holds(AdjustedVault(v, account, harnesses), k, h) <==>
      if Names(v, k, account) then h in AllPieces(Dedup(harnesses)) else Holds(v, k, h) && h !in harnesses
  {
    if k in v {
      AdjustedReads(v[k], account, harnesses);
    }
  }

  /** No other account holds a piece of the given names that is not itself one of the names. */
  ghost predicate NoHiddenPiece(v: Vault, account: string, harnesses: seq<string>)
  {
    forall k, h | Holds(v, k, h) && h in AllPieces(Dedup(harnesses)) :: k.1 == account || h in harnesses
  }

  /**
   Giving a connected account some harnesses leaves each harness one holder if and only if no other
   account holds a hidden piece of the names given.
   */
  lemma OneHolderIff(v: Vault, account: string, harnesses: seq<string>, t: (string, string))
    requires Keyed(v) && DistinctIds(v) && OneHolder(v) && Names(v, t, account)
    ensures OneHolder(AdjustedVault(v, account, harnesses)) <==> NoHiddenPiece(v, account, harnesses)
  {
    var v' := AdjustedVault(v, account, harnesses);
    if NoHiddenPiece(v, account, harnesses) {
      forall k1, k2, h | Holds(v', k1, h) && Holds(v', k2, h) ensures k1 == k2 {
        AdjustedHolds(v, account, harnesses, k1, h);
        AdjustedHolds(v, account, harnesses, k2, h);
        HolderIsAccount(v, k1, h);
        HolderIsAccount(v, k2, h);
      }
    }
    if OneHolder(v') {
      forall k, h | Holds(v, k, h) && h in AllPieces(Dedup(harnesses)) ensures k.1 == account || h in harnesses {
        AdjustedHolds(v, account, harnesses, k, h);
        AdjustedHolds(v, account, harnesses, t, h);
      }
    }
  }

  lemma HolderIsAccount(v: Vault, k: (string, string), h: string)
    ensures Holds(v, k, h) ==> IsAccount(v[k])
  {
  }

  /** Clean names hide no piece. */
  lemma CleanHidesNothing(v: Vault, account: string, harnesses: seq<string>)
    requires AllClean(harnesses)
    ensures NoHiddenPiece(v, account, harnesses)
  {
    SplitUndoesJoin(Dedup(harnesses));
  }

  /** Whether the account is connected or not, names without hidden pieces leave each harness one holder. */
  lemma KeepsOneHolder(v: Vault, account: string, harnesses: seq<string>)
    requires Keyed(v) && DistinctIds(v) && OneHolder(v) && NoHiddenPiece(v, account, harnesses)
    ensures OneHolder(AdjustedVault(v, account, harnesses))
  {
    if t :| Names(v, t, account) {
      OneHolderIff(v, account, harnesses, t);
    } else {
      var v' := AdjustedVault(v, account, harnesses);
      forall k1, k2, h | Holds(v', k1, h) && Holds(v', k2, h) ensures k1 == k2 {
        AdjustedHolds(v, account, harnesses, k1, h);
        AdjustedHolds(v, account, harnesses, k2, h);
      }
    }
  }

  /** A name with a comma in it does give one harness two holders. */
  lemma CommaSharesAHarness(v: Vault, t: (string, string), k: (string, string), x: string, y: string)
    requires Keyed(v) && DistinctIds(v) && OneHolder(v)
    requires Names(v, t, t.1) && Holds(v, k, x) && k.1 != t.1
    ensures !OneHolder(AdjustedVault(v, t.1, [x + "," + y]))
  {
    var names := [x + "," + y];
    assert Clean(x) by { DefaultsClean(v[k]); }
    PieceBeforeComma(x, y);
    SingleName(names);
    assert x !in names;
    OneHolderIff(v, t.1, names, t);
  }

  lemma SingleName(names: seq<string>)
    requires |names| == 1
    ensures AllPieces(Dedup(names)) == Pieces(names[0])
  {
    assert names[..0] == [] && Dedup(names[..0]) == [] && Dedup(names) == [] + [names[0]];
    assert Dedup(names)[1..] == [];
  }

  // ----- who answers -----

  lemma {:induction false} FindsHolder(held: seq<Record>, harness: string)
    ensures var found := DefaultAccountFor(held, harness);
      && (found.None? ==> forall r | r in held :: harness !in DefaultsOf(r))
      && (found.Some? ==> exists r | r in held :: harness in DefaultsOf(r) && r.account == found.value)
  {
    if held != [] && harness !in DefaultsOf(held[0]) {
      FindsHolder(held[1..], harness);
    }
  }

  /**
   After an account is given some harnesses it is the one answered for each of them that is a clean name,
   in whatever order the vault is listed; for a name that is not clean nothing is ever answered.
   */
  lemma DefaultAnswersIff(v: Vault, account: string, harnesses: seq<string>, t: (string, string),
                          held: seq<Record>, h: string)
    requires Keyed(v) && DistinctIds(v) && Names(v, t, account) && h in harnesses
    requires Lists(held, AdjustedVault(v, account, harnesses))
    ensures DefaultAccountFor(held, h) == if Clean(h) then Some(account) else None
  {
    var v' := AdjustedVault(v, account, harnesses);
    FindsHolder(held, h);
    PiecesOfJoin(Dedup(harnesses));
    ReadBackIffClean(Dedup(harnesses), h);
    AdjustedHolds(v, account, harnesses, t, h);
    assert v'[t] in held;
    forall r | r in held && h in DefaultsOf(r) ensures r.account == account && Clean(h) {
      assert Holds(v', KeyOf(r), h);
      AdjustedHolds(v, account, harnesses, KeyOf(r), h);
    }
  }

  // ----- what is reported as changed -----

  /** The record already says, in names that are not all clean, what the account named is given. */
  predicate SaysSoAlready(r: Record, account: string, harnesses: seq<string>)
  {
    && IsAccount(r) && r.account == account && !AllClean(harnesses)
    && META_DEFAULT_FOR in r.metadata && r.metadata[META_DEFAULT_FOR] == Join(Dedup(harnesses))
  }

  /** What is reported changed is what differs, and a record that says so already. */
  lemma ChangesIffDiffers(r: Record, account: string, harnesses: seq<string>)
    ensures Changes(r, account, harnesses) <==>
      Adjusted(r, account, harnesses) != r || SaysSoAlready(r, account, harnesses)
  {
    if IsAccount(r) {
      var after := NewDefaults(r, account, harnesses);
      PiecesOfJoin(after);
      if r.account == account {
        PiecesSettledIff(harnesses);
      } else {
        DefaultsClean(r);
        SplitUndoesJoin(after);
      }
    }
  }

  /** So with clean names the records reported are exactly those that differ, as they then are. */
  lemma {:induction false} ReportedExactly(held: seq<Record>, account: string, harnesses: seq<string>, r': Record)
    requires AllClean(harnesses)
    ensures r' in ChangedRecords(held, account, harnesses) <==>
      exists r | r in held :: Adjusted(r, account, harnesses) != r && Adjusted(r, account, harnesses) == r'
  {
    if held != [] {
      ChangesIffDiffers(held[0], account, harnesses);
      ReportedExactly(held[1..], account, harnesses, r');
    }
  }

  /** A record that was just adjusted changes again exactly when it is the named account's and a name is not clean. */
  lemma SettledIff(r: Record, account: string, harnesses: seq<string>)
    ensures Changes(Adjusted(r, account, harnesses), account, harnesses) <==>
      IsAccount(r) && r.account == account && !AllClean(harnesses)
  {
    var r' := Adjusted(r, account, harnesses);
    AdjustedReads(r, account, harnesses);
    assert r'.account == r.account by { AdjustedKeeps(r, account, harnesses); }
    if IsAccount(r) {
      if r.account == account {
        PiecesSettledIff(harnesses);
      } else {
        KeepAllLeft(DefaultsOf(r'), harnesses);
      }
    }
  }

  /** A list of names is its own pieces exactly when every name in it is clean. */
  lemma PiecesSettledIff(harnesses: seq<string>)
    ensures AllPieces(Dedup(harnesses)) == Dedup(harnesses) <==> AllClean(harnesses)
  {
    var names := Dedup(harnesses);
    if AllClean(harnesses) {
      SplitUndoesJoin(names);
    }
    if AllPieces(names) == names {
      PiecesOfJoin(names);
      PiecesClean(Join(names));
    }
  }

  lemma KeepAllLeft(names: seq<string>, gone: seq<string>)
    requires forall h | h in names :: h !in gone
    ensures Without(names, gone) == names
  {
    KeepAll(h => h !in gone, names);
  }

  /**
   Choosing the same defaults again for a connected account reports nothing if and only if every name given
   is clean.
   */
  lemma RepeatReportsNothingIff(v: Vault, held: seq<Record>, account: string, harnesses: seq<string>, t: (string, string))
    requires Keyed(v) && Names(v, t, account) && Lists(held, AdjustedVault(v, account, harnesses))
    ensures ChangedRecords(held, account, harnesses) == [] <==> AllClean(harnesses)
  {
    NothingReportedIff(held, account, harnesses);
    var v' := AdjustedVault(v, account, harnesses);
    forall r | r in held ensures Changes(r, account, harnesses) ==> !AllClean(harnesses) {
      assert r == v'[KeyOf(r)];
      SettledIff(v[KeyOf(r)], account, harnesses);
    }
    SettledIff(v[t], account, harnesses);
    assert v'[t] in held;
  }

  lemma {:induction false} NothingReportedIff(held: seq<Record>, account: string, harnesses: seq<string>)
    ensures ChangedRecords(held, account, harnesses) == [] <==> forall r | r in held :: !Changes(r, account, harnesses)
  {
    if held != [] {
      NothingReportedIff(held[1..], account, harnesses);
      assert forall r | r in held :: r == held[0] || r in held[1..];
    }
  }
}
