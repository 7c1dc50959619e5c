/** Linking a credential, resolving the account a project uses, and the identity it then acts under. */
module Linking {
  import opened Basics
  import opened ProviderAccounts
  import opened VaultStore

  const META_SUBJECT_ID := "subject_id"
  const META_SUBJECT := "subject"

  const MAX_VERSION: nat := 0xFFFF_FFFF_FFFF_FFFF

  datatype Identity = Identity(subjectId: string, login: string)

  /** The provider's subject a record is of. */
  predicate IsOf(r: Record, provider: string, subjectId: string)
  {
    r.provider == provider && META_SUBJECT_ID in r.metadata && r.metadata[META_SUBJECT_ID] == subjectId
  }

  function FindSubject(held: seq<Record>, provider: string, subjectId: string): (r: Option<Record>)
    ensures r.Some? ==> r.value in held && IsOf(r.value, provider, subjectId)
    ensures r.None? ==> forall x | x in held :: !IsOf(x, provider, subjectId)
  {
    if held == [] then None
    else if IsOf(held[0], provider, subjectId) then Some(held[0])
    else FindSubject(held[1..], provider, subjectId)
  }

  /** The id a newly linked account gets. */
  function LinkedId(provider: string, subjectId: string): (id: string)
  {
    provider + "-" + subjectId
  }

  function LinkedMetadata(m: map<string, string>, identity: Identity): (m': map<string, string>)
  {
    m[META_SUBJECT_ID := identity.subjectId][META_SUBJECT := identity.login]
  }

  /** `record_for_link`: a re-link keeps the account id and the label, a new link derives both. */
  function RecordForLink(held: seq<Record>, provider: string, identity: Identity, token: string, at: nat): (r: Record)
  {
    var existing := FindSubject(held, provider, identity.subjectId);
    if existing.Some? then
      var e := existing.value;
      Record(provider, e.account, e.labelText, token, LinkedMetadata(e.metadata, identity), at,
             if e.version >= MAX_VERSION then e.version else e.version + 1)
    else
      Record(provider, LinkedId(provider, identity.subjectId), identity.login, token,
             LinkedMetadata(map[], identity), at, FIRST_VERSION)
  }

  // ----- which account a project uses -----

  datatype Resolution =
    | Assigned(account: string)
    | NotAssigned
    | UnknownOnThisHost(account: string)
    | Ambiguous(provider: string)

  type Assignments = seq<(string, string)>

  function AssignedAt(assignments: Assignments, provider: string): (accounts: seq<string>)
  {
    if assignments == [] then []
    else
      (if assignments[0].0 == provider then [assignments[0].1] else [])
      + AssignedAt(assignments[1..], provider)
  }

  function ResolveAccount(assignments: Assignments, provider: string, held: seq<Record>): (r: Resolution)
  {
    var accounts := AssignedAt(assignments, provider);
    if accounts == [] then NotAssigned
    else if |accounts| > 1 then Ambiguous(provider)
    else if exists r | r in held :: KeyOf(r) == (provider, accounts[0]) then Assigned(accounts[0])
    else UnknownOnThisHost(accounts[0])
  }

  // ----- the four answers, by the entries of the assignments -----

  /** Entry `i` is for `provider`. */
  predicate IsFor(assignments: Assignments, provider: string, i: nat)
  {
    i < |assignments| && assignments[i].0 == provider
  }

  /** Entry `i` is the only one for `provider`. */
  ghost predicate OnlyFor(assignments: Assignments, provider: string, i: nat)
  {
    IsFor(assignments, provider, i) && forall j: nat | IsFor(assignments, provider, j) :: j == i
  }

  ghost predicate TwoFor(assignments: Assignments, provider: string)
  {
    exists i: nat, j: nat :: i != j && IsFor(assignments, provider, i) && IsFor(assignments, provider, j)
  }

  lemma {:induction false} NoneAssigned(assignments: Assignments, provider: string)
    requires forall i: nat :: !IsFor(assignments, provider, i)
    ensures AssignedAt(assignments, provider) == []
  {
    if assignments != [] {
      assert !IsFor(assignments, provider, 0);
      forall i: nat ensures !IsFor(assignments[1..], provider, i) { assert !IsFor(assignments, provider, i + 1); }
      NoneAssigned(assignments[1..], provider);
    }
  }

  lemma {:induction false} SomeAssigned(assignments: Assignments, provider: string, i: nat)
    requires IsFor(assignments, provider, i)
    ensures AssignedAt(assignments, provider) != []
  {
    if i > 0 {
      SomeAssigned(assignments[1..], provider, i - 1);
    }
  }

  lemma {:induction false} OneAssigned(assignments: Assignments, provider: string, i: nat)
    requires OnlyFor(assignments, provider, i)
    ensures AssignedAt(assignments, provider) == [assignments[i].1]
  {
    var rest := assignments[1..];
    if i == 0 {
      forall j: nat ensures !IsFor(rest, provider, j) {
        assert IsFor(rest, provider, j) ==> IsFor(assignments, provider, j + 1);
      }
      NoneAssigned(rest, provider);
    } else {
      assert !IsFor(assignments, provider, 0);
      forall j: nat | IsFor(rest, provider, j) ensures j == i - 1 { assert IsFor(assignments, provider, j + 1); }
      OneAssigned(rest, provider, i - 1);
    }
  }

  lemma {:induction false} TwoAssigned(assignments: Assignments, provider: string, i: nat, j: nat)
    requires i < j && IsFor(assignments, provider, i) && IsFor(assignments, provider, j)
    ensures |AssignedAt(assignments, provider)| > 1
  {
    if i == 0 {
      SomeAssigned(assignments[1..], provider, j - 1);
    } else {
      TwoAssigned(assignments[1..], provider, i - 1, j - 1);
    }
  }

  lemma AssignedByCount(assignments: Assignments, provider: string)
    ensures AssignedAt(assignments, provider) == [] <==> forall i: nat :: !IsFor(assignments, provider, i)
    ensures |AssignedAt(assignments, provider)| > 1 <==> TwoFor(assignments, provider)
  {
    if i: nat :| IsFor(assignments, provider, i) {
      SomeAssigned(assignments, provider, i);
      if TwoFor(assignments, provider) {
        var j: nat, k: nat :| j != k && IsFor(assignments, provider, j) && IsFor(assignments, provider, k);
        TwoAssigned(assignments, provider, if j < k then j else k, if j < k then k else j);
      } else {
        OneAssigned(assignments, provider, i);
      }
    } else {
      NoneAssigned(assignments, provider);
    }
  }

  /**
   For any assignments and records: no account without an entry for the provider, whatever is held; ambiguous
   exactly with two entries; and with one, the account of that entry, if a record of it is held.
   */
  lemma ResolvedByEntries(assignments: Assignments, provider: string, held: seq<Record>)
    ensures var r := ResolveAccount(assignments, provider, held);
      && (r == NotAssigned <==> forall i: nat :: !IsFor(assignments, provider, i))
      && (r == Ambiguous(provider) <==> TwoFor(assignments, provider))
      && forall i: nat | OnlyFor(assignments, provider, i) ::
           r == if exists x | x in held :: x.provider == provider && x.account == assignments[i].1
                then Assigned(assignments[i].1) else UnknownOnThisHost(assignments[i].1)
  {
    AssignedByCount(assignments, provider);
    forall i: nat | OnlyFor(assignments, provider, i)
      ensures AssignedAt(assignments, provider) == [assignments[i].1]
    {
      OneAssigned(assignments, provider, i);
    }
  }

  // ----- who it acts as -----

  datatype GitIdentity = GitIdentity(name: string, email: string)

  datatype Acting = Acting(account: string, token: string, git: GitIdentity)

  datatype IdentityError =
    | NoAssignment(provider: string)
    | NotOnThisHost(provider: string, account: string)
    | AmbiguousAt(provider: string)
    | Unusable(provider: string, account: string, missing: string)
    | ExpectFailed      // the record resolved is not held: the source panics here

  function FindRecord(held: seq<Record>, key: (string, string)): (r: Option<Record>)
    ensures r.Some? ==> r.value in held && KeyOf(r.value) == key
    ensures r.None? <==> forall x | x in held :: KeyOf(x) != key
  {
    if held == [] then None
    else if KeyOf(held[0]) == key then Some(held[0])
    else FindRecord(held[1..], key)
  }

  function IdentityOf(r: Record, provider: string, account: string): (a: Result<Acting, IdentityError>)
  {
    if META_SUBJECT_ID !in r.metadata || r.metadata[META_SUBJECT_ID] == "" then
      Err(Unusable(provider, account, META_SUBJECT_ID))
    else if META_SUBJECT !in r.metadata || r.metadata[META_SUBJECT] == "" then
      Err(Unusable(provider, account, META_SUBJECT))
    else
      var login := r.metadata[META_SUBJECT];
      Ok(Acting(account, r.secret,
                GitIdentity(login, r.metadata[META_SUBJECT_ID] + "+" + login + "@users.noreply.github.com")))
  }

  /** `acting_identity`. */
  function ActingIdentity(assignments: Assignments, provider: string, held: seq<Record>):
    (a: Result<Acting, IdentityError>)
  {
    match ResolveAccount(assignments, provider, held)
    case NotAssigned => Err(NoAssignment(provider))
    case UnknownOnThisHost(account) => Err(NotOnThisHost(provider, account))
    case Ambiguous(p) => Err(AmbiguousAt(p))
    case Assigned(account) =>
      var record := FindRecord(held, (provider, account));
      if record.None? then Err(ExpectFailed) else IdentityOf(record.value, provider, account)
  }

  /** The lookup behind a resolved account never fails, for any assignments and any records. */
  lemma ExpectNeverFires(assignments: Assignments, provider: string, held: seq<Record>)
    ensures ActingIdentity(assignments, provider, held) != Err(ExpectFailed)
  {
    var resolved := ResolveAccount(assignments, provider, held);
    if resolved.Assigned? {
      var r :| r in held && KeyOf(r) == (provider, resolved.account);
      assert FindRecord(held, (provider, resolved.account)).Some?;
    }
  }

  function Unlabelled(held: seq<Record>): (r: seq<Record>)
  {
    if held == [] then [] else [held[0].(labelText := "")] + Unlabelled(held[1..])
  }

  lemma {:induction false} UnlabelledFinds(held: seq<Record>, key: (string, string))
    ensures var found, bare := FindRecord(held, key), FindRecord(Unlabelled(held), key);
      found.Some? == bare.Some? && (found.Some? ==> bare.value == found.value.(labelText := ""))
  {
    if held != [] {
      assert Unlabelled(held)[1..] == Unlabelled(held[1..]) && Unlabelled(held)[0] == held[0].(labelText := "");
      UnlabelledFinds(held[1..], key);
    }
  }

  /** With one entry for the provider, resolution and identity both come from the first record of its account. */
  lemma ResolvedByFind(assignments: Assignments, provider: string, i: nat, held: seq<Record>)
    requires OnlyFor(assignments, provider, i)
    ensures var account := assignments[i].1;
      var found := FindRecord(held, (provider, account));
      && ResolveAccount(assignments, provider, held)
         == (if found.Some? then Assigned(account) else UnknownOnThisHost(account))
      && ActingIdentity(assignments, provider, held)
         == if found.Some? then IdentityOf(found.value, provider, account) else Err(NotOnThisHost(provider, account))
  {
    OneAssigned(assignments, provider, i);
  }

  /** Without an entry for the provider, or with two, nobody is acted as, whatever is held. */
  lemma ActingByEntries(assignments: Assignments, provider: string, held: seq<Record>)
    ensures var acting := ActingIdentity(assignments, provider, held);
      && (acting == Err(NoAssignment(provider)) <==> forall i: nat :: !IsFor(assignments, provider, i))
      && (acting == Err(AmbiguousAt(provider)) <==> TwoFor(assignments, provider))
  {
    ResolvedByEntries(assignments, provider, held);
  }

  lemma LabelsOfOne(assignments: Assignments, provider: string, i: nat, a: seq<Record>, b: seq<Record>)
    requires OnlyFor(assignments, provider, i) && Unlabelled(a) == Unlabelled(b)
    ensures ActingIdentity(assignments, provider, a) == ActingIdentity(assignments, provider, b)
  {
    var key := (provider, assignments[i].1);
    UnlabelledFinds(a, key);
    UnlabelledFinds(b, key);
    ResolvedByFind(assignments, provider, i, a);
    ResolvedByFind(assignments, provider, i, b);
  }

  /** The identity never depends on a label: records that differ only there give the same answer. */
  lemma LabelNeverMatters(assignments: Assignments, provider: string, a: seq<Record>, b: seq<Record>)
    requires Unlabelled(a) == Unlabelled(b)
    ensures ActingIdentity(assignments, provider, a) == ActingIdentity(assignments, provider, b)
  {
    ActingByEntries(assignments, provider, a);
    ActingByEntries(assignments, provider, b);
    if i: nat :| IsFor(assignments, provider, i) {
      if OnlyFor(assignments, provider, i) {
        LabelsOfOne(assignments, provider, i, a, b);
      } else {
        var j: nat :| IsFor(assignments, provider, j) && j != i;
        assert TwoFor(assignments, provider);
      }
    }
  }
}
