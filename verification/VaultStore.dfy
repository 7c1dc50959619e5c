/**
 The records a person's vault holds, changed one atomic operation at a time: connecting a provider
 account, renaming, removing, and choosing the account each harness uses by default.
 */
module VaultStore {
  import opened Basics
  import opened ProviderAccounts

  /** An open vault: one record per provider and account id. */
  type Vault = map<(string, string), Record>

  function KeyOf(r: Record): (key: (string, string)) { (r.provider, r.account) }

  function Put(v: Vault, r: Record): (v': Vault) { v[KeyOf(r) := r] }

  predicate Keyed(v: Vault)
  {
    forall k | k in v :: KeyOf(v[k]) == k
  }

  /** `held` is a listing of the vault: each record once, in some order. */
  ghost predicate Lists(held: seq<Record>, v: Vault)
  {
    && Distinct(held)
    && (forall r | r in held :: KeyOf(r) in v && v[KeyOf(r)] == r)
    && (forall k | k in v :: v[k] in held)
  }

  datatype StoreError = NotFound

  /** The vault after a rename, which does nothing for a record that is not there. */
  function Relabelled(v: Vault, provider: string, account: string, text: string): (v': Vault)
  {
    if (provider, account) in v then Put(v, v[(provider, account)].(labelText := text)) else v
  }

  function AdjustedVault(v: Vault, account: string, harnesses: seq<string>): (v': Vault)
  {
    map k | k in v :: Adjusted(v[k], account, harnesses)
  }

  predicate Changes(r: Record, account: string, harnesses: seq<string>)
  {
    IsAccount(r) && NewDefaults(r, account, harnesses) != DefaultsOf(r)
  }

  /** The records a change of defaults rewrites, as they then are, in listing order. */
  function ChangedRecords(held: seq<Record>, account: string, harnesses: seq<string>): (changed: seq<Record>)
  {
    if held == [] then []
    else
      (if Changes(held[0], account, harnesses) then [Adjusted(held[0], account, harnesses)] else [])
      + ChangedRecords(held[1..], account, harnesses)
  }

  class Store {
    var vault: Vault

    constructor ()
      ensures vault == map[]
    {
      vault := map[];
    }

    /** A new account is stored under an id no held record uses; no held record is replaced. */
    method PutProviderAccount(account: Account, held: seq<Record>, now: nat) returns (record: Record)
      requires Keyed(vault) && Lists(held, vault)
      modifies this
      ensures exists id, n :: IsUnclaimed(id, account.account, Ids(held), n)
                           && record == ToRecord(account.(account := id), now)
      ensures KeyOf(record) !in old(vault) && vault == Put(old(vault), record)
    {
      var id := UnclaimedAccountId(account.account, held);
      record := ToRecord(account.(account := id), now);
      UnclaimedIsFree(vault, held, record);
      vault := Put(vault, record);
    }

    method SetLabel(provider: string, account: string, text: string) returns (r: Result<Record, StoreError>)
      requires Keyed(vault)
      modifies this
      ensures Keyed(vault) && vault == Relabelled(old(vault), provider, account, text)
      ensures (provider, account) !in old(vault) ==> r == Err(NotFound) && vault == old(vault)
      ensures (provider, account) in old(vault) ==>
        && r == Ok(old(vault)[(provider, account)].(labelText := text))
        && vault == old(vault)[(provider, account) := r.value]
    {
      if (provider, account) !in vault {
        return Err(NotFound);
      }
      var record := vault[(provider, account)].(labelText := text);
      vault := Put(vault, record);
      return Ok(record);
    }

    method Remove(provider: string, account: string)
      modifies this
      ensures vault == old(vault) - {(provider, account)}
    {
      vault := vault - {(provider, account)};
    }

    /** `set_provider_account_defaults`, one record after another. */
    method SetDefaults(account: string, harnesses: seq<string>, held: seq<Record>) returns (changed: seq<Record>)
      requires Keyed(vault) && Lists(held, vault)
      modifies this
      ensures vault == AdjustedVault(old(vault), account, harnesses)
      ensures changed == ChangedRecords(held, account, harnesses)
    {
      changed := [];
      ghost var was, adjusted := vault, AdjustedVault(vault, account, harnesses);
      for i := 0 to |held|
        invariant Partly(vault, was, adjusted, held, i)
        invariant changed + ChangedRecords(held[i..], account, harnesses) == ChangedRecords(held, account, harnesses)
      {
        PartlyNext(vault, was, adjusted, held, i);
        ChangedNext(changed, held, i, account, harnesses);
        var record, changes := Adjust(held[i], account, harnesses);
        if changes {
          vault := Put(vault, record);
          changed := changed + [record];
        }
      }
      assert held[..|held|] == held;
      assert vault == adjusted;
    }

    /** One record of the loop: what it becomes, and whether that is a change. */
    static method Adjust(record: Record, account: string, harnesses: seq<string>)
      returns (r: Record, changes: bool)
      ensures r == Adjusted(record, account, harnesses) && changes == Changes(record, account, harnesses)
    {
      if FromRecord(record).None? {
        return record, false;
      }
      var before := DefaultsOf(record);
      var after;
      if record.account == account {
        after := DedupInOrder(harnesses);
      } else {
        after := Without(before, harnesses);
      }
      assert after == NewDefaults(record, account, harnesses);
      if after == before {
        return record, false;
      }
      return WithDefaults(record, after), true;
    }
  }

  lemma UnclaimedIsFree(v: Vault, held: seq<Record>, record: Record)
    requires Keyed(v) && Lists(held, v) && record.account !in Ids(held)
    ensures KeyOf(record) !in v
  {
    if KeyOf(record) in v {
      assert false;
    }
  }

  lemma ChangedNext(changed: seq<Record>, held: seq<Record>, i: nat, account: string, harnesses: seq<string>)
    requires i < |held|
    ensures changed + ChangedRecords(held[i..], account, harnesses) ==
      (if Changes(held[i], account, harnesses) then changed + [Adjusted(held[i], account, harnesses)] else changed)
      + ChangedRecords(held[i + 1..], account, harnesses)
  {
    assert held[i..][0] == held[i] && held[i..][1..] == held[i + 1..];
  }

  /** The first `i` listed records are adjusted in the vault, the others are as they were. */
  ghost predicate Partly(v: Vault, was: Vault, adjusted: Vault, held: seq<Record>, i: nat)
    requires i <= |held|
  {
    && v.Keys == was.Keys == adjusted.Keys
    && forall k | k in was :: v[k] == if was[k] in held[..i] then adjusted[k] else was[k]
  }

  lemma ListedUpTo(held: seq<Record>, i: nat, r: Record)
    requires Distinct(held) && i < |held|
    ensures held[i] !in held[..i]
    ensures r in held[..i + 1] <==> r in held[..i] || r == held[i]
  {
    assert held == held[..i] + held[i..] && held[..i + 1] == held[..i] + [held[i]];
    DistinctSplit(held[..i], held[i..]);
    assert held[i..][0] == held[i];
  }

  lemma PartlyNext(v: Vault, was: Vault, adjusted: Vault, held: seq<Record>, i: nat)
    requires Keyed(was) && Lists(held, was) && i < |held| && Partly(v, was, adjusted, held, i)
    ensures var k := KeyOf(held[i]);
      && k in was && was[k] == held[i]
      && Partly(v[k := adjusted[k]], was, adjusted, held, i + 1)
      && (adjusted[k] == held[i] ==> v[k := adjusted[k]] == v)
  {
    var key := KeyOf(held[i]);
    assert held[i] in held;
    ListedUpTo(held, i, held[i]);
    var v' := v[key := adjusted[key]];
    assert v'.Keys == was.Keys;
    forall k | k in was ensures v'[k] == if was[k] in held[..i + 1] then adjusted[k] else was[k] {
      ListedUpTo(held, i, was[k]);
    }
  }
}
