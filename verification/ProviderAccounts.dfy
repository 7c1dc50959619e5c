/** Vault records, the provider accounts spelled in them, and the harnesses an account is the default for. */
module ProviderAccounts {
  import opened Basics
  import opened CommaList

  datatype Record = Record(
    provider: string,
    account: string,
    labelText: string,
    secret: string,
    metadata: map<string, string>,
    updatedAt: nat,
    version: nat)

  const FIRST_VERSION: nat := 1

  const META_PRESET := "preset"
  const META_PROBED_AT := "probed_at"
  const META_ANTHROPIC := "endpoint.anthropic-messages"
  const META_RESPONSES := "endpoint.openai-responses"
  const META_CHAT := "endpoint.openai-chat"
  const META_DEFAULT_FOR := "default_for"

  predicate IsPreset(id: string)
  {
    id in {"meta", "fireworks", "baseten", "modal", "openai-compatible", "anthropic-compatible"}
  }

  datatype Endpoints = Endpoints(anthropic: Option<string>, responses: Option<string>, chat: Option<string>)

  datatype Account = Account(account: string, preset: string, labelText: string, endpoints: Endpoints, apiKey: string)

  // ----- the record that holds an account -----

  function With(m: map<string, string>, key: string, value: Option<string>): (m': map<string, string>)
  {
    if value.Some? then m[key := value.value] else m
  }

  function ToRecord(a: Account, now: nat): (r: Record)
  {
    var m := map[META_PRESET := a.preset, META_PROBED_AT := Decimal(now)];
    var m := With(m, META_ANTHROPIC, a.endpoints.anthropic);
    var m := With(m, META_RESPONSES, a.endpoints.responses);
    var m := With(m, META_CHAT, a.endpoints.chat);
    Record(a.preset, a.account, a.labelText, a.apiKey, m, now, FIRST_VERSION)
  }

  function Lookup(m: map<string, string>, key: string): (value: Option<string>)
  {
    if key in m then Some(m[key]) else None
  }

  /** The provider account a record holds, if it holds one. */
  function FromRecord(r: Record): (a: Option<Account>)
  {
    if META_PRESET !in r.metadata || !IsPreset(r.metadata[META_PRESET]) || r.provider != r.metadata[META_PRESET]
    then None
    else
      var m := r.metadata;
      var endpoints := Endpoints(Lookup(m, META_ANTHROPIC), Lookup(m, META_RESPONSES), Lookup(m, META_CHAT));
      Some(Account(r.account, r.provider, r.labelText, endpoints, r.secret))
  }

  predicate IsAccount(r: Record) { FromRecord(r).Some? }

  /** The metadata keys are told apart by their lengths. */
  lemma KeysDiffer()
    ensures |META_PRESET| == 6 && |META_PROBED_AT| == 9 && |META_DEFAULT_FOR| == 11
    ensures |META_CHAT| == 20 && |META_RESPONSES| == 25 && |META_ANTHROPIC| == 27
  {
  }

  lemma LookupWith(m: map<string, string>, key: string, value: Option<string>, sought: string)
    requires key !in m
    ensures Lookup(With(m, key, value), sought) == if sought == key then value else Lookup(m, sought)
  {
  }

  /** Reading undoes writing, for every account of every preset. */
  lemma ReadUndoesWrite(a: Account, now: nat)
    requires IsPreset(a.preset)
    ensures FromRecord(ToRecord(a, now)) == Some(a)
    ensures META_DEFAULT_FOR !in ToRecord(a, now).metadata
    ensures Lookup(ToRecord(a, now).metadata, META_PROBED_AT) == Some(Decimal(now))
    ensures ToRecord(a, now).updatedAt == now && ToRecord(a, now).version == 1
  {
    KeysDiffer();
    var m0 := map[META_PRESET := a.preset, META_PROBED_AT := Decimal(now)];
    var m1 := With(m0, META_ANTHROPIC, a.endpoints.anthropic);
    var m2 := With(m1, META_RESPONSES, a.endpoints.responses);
    var m3 := With(m2, META_CHAT, a.endpoints.chat);
    WrittenKey(m0, m1, m2, m3, a.endpoints, META_PRESET);
    WrittenKey(m0, m1, m2, m3, a.endpoints, META_PROBED_AT);
    WrittenKey(m0, m1, m2, m3, a.endpoints, META_ANTHROPIC);
    WrittenKey(m0, m1, m2, m3, a.endpoints, META_RESPONSES);
    WrittenKey(m0, m1, m2, m3, a.endpoints, META_CHAT);
    WrittenKey(m0, m1, m2, m3, a.endpoints, META_DEFAULT_FOR);
  }

  lemma WrittenKey(m0: map<string, string>, m1: map<string, string>, m2: map<string, string>,
                   m3: map<string, string>, e: Endpoints, sought: string)
    requires m0.Keys == {META_PRESET, META_PROBED_AT}
    requires m1 == With(m0, META_ANTHROPIC, e.anthropic)
    requires m2 == With(m1, META_RESPONSES, e.responses)
    requires m3 == With(m2, META_CHAT, e.chat)
    ensures Lookup(m3, sought) ==
      if sought == META_CHAT then e.chat else if sought == META_RESPONSES then e.responses
      else if sought == META_ANTHROPIC then e.anthropic else Lookup(m0, sought)
  {
    KeysDiffer();
    LookupWith(m0, META_ANTHROPIC, e.anthropic, sought);
    LookupWith(m1, META_RESPONSES, e.responses, sought);
    LookupWith(m2, META_CHAT, e.chat, sought);
  }

  // ----- ids -----

  /** The ids tried for a new account: `wanted`, `wanted-2`, `wanted-3`, … */
  function Candidate(wanted: string, n: nat): (id: string)
  {
    if n == 1 then wanted else wanted + "-" + Decimal(n)
  }

  function Ids(held: seq<Record>): (ids: set<string>)
  {
    set r | r in held :: r.account
  }

  /** The first candidate that no held record uses. */
  predicate IsUnclaimed(id: string, wanted: string, ids: set<string>, n: nat)
  {
    n >= 1 && id == Candidate(wanted, n) && id !in ids && forall m | 1 <= m < n :: Candidate(wanted, m) in ids
  }

  lemma CandidatesDiffer(wanted: string, m: nat, n: nat)
    requires 1 <= m < n
    ensures Candidate(wanted, m) != Candidate(wanted, n)
  {
    if Candidate(wanted, m) == Candidate(wanted, n) {
      var k := |wanted| + 1;
      assert Candidate(wanted, n)[k..] == Decimal(n);
      if m > 1 {
        assert Candidate(wanted, m)[k..] == Decimal(m);
        DecimalInjective(m, n);
      }
    }
  }

  lemma {:induction false} CandidatesCount(wanted: string, n: nat, ids: set<string>)
    requires forall m | 1 <= m <= n :: Candidate(wanted, m) in ids
    ensures n <= |ids|
    decreases n
  {
    if n > 0 {
      var last := Candidate(wanted, n);
      var rest := ids - {last};
      assert |rest| == |ids| - 1;
      forall m | 1 <= m <= n - 1 ensures Candidate(wanted, m) in rest { CandidatesDiffer(wanted, m, n); }
      CandidatesCount(wanted, n - 1, rest);
    }
  }

  lemma {:induction false} IdsAtMost(held: seq<Record>)
    ensures |Ids(held)| <= |held|
  {
    if held != [] {
      IdsAtMost(held[1..]);
      assert Ids(held) == {held[0].account} + Ids(held[1..]);
    }
  }

  /**
   `unclaimed_account_id` ends within one more candidate than there are records, by counting, with the
   wanted id if it is free and the lowest-numbered free one otherwise.
   */
  method UnclaimedAccountId(wanted: string, held: seq<Record>) returns (id: string)
    ensures exists n :: 1 <= n <= |held| + 1 && IsUnclaimed(id, wanted, Ids(held), n)
  {
    id := wanted;
    var n := 2;
    IdsAtMost(held);
    while exists r | r in held :: r.account == id
      invariant n >= 2 && id == Candidate(wanted, n - 1)
      invariant forall m | 1 <= m < n - 1 :: Candidate(wanted, m) in Ids(held)
      invariant n - 2 <= |held|
      decreases |held| + 2 - n
    {
      assert id in Ids(held);
      CandidatesCount(wanted, n - 1, Ids(held));
      id := wanted + "-" + Decimal(n);
      n := n + 1;
    }
    assert IsUnclaimed(id, wanted, Ids(held), n - 1);
  }

  // ----- defaults -----

  /** The harnesses a record is the default for; none for any other kind of record. */
  function DefaultsOf(r: Record): (harnesses: seq<string>)
  {
    if IsAccount(r) && META_DEFAULT_FOR in r.metadata then Pieces(r.metadata[META_DEFAULT_FOR]) else []
  }

  /** The first held record that is the default for `harness`. */
  function DefaultAccountFor(held: seq<Record>, harness: string): (account: Option<string>)
  {
    if held == [] then None
    else if harness in DefaultsOf(held[0]) then Some(held[0].account)
    else DefaultAccountFor(held[1..], harness)
  }

  function DedupStep(kept: seq<string>, harness: string): (kept': seq<string>)
  {
    if harness in kept then kept else kept + [harness]
  }

  /** The names without repetition, each where it first occurs. */
  function Dedup(harnesses: seq<string>): (kept: seq<string>)
    ensures forall h :: h in kept <==> h in harnesses
  {
    if harnesses == [] then []
    else
      var before := Dedup(harnesses[..|harnesses| - 1]);
      assert harnesses == harnesses[..|harnesses| - 1] + [harnesses[|harnesses| - 1]];
      DedupStep(before, harnesses[|harnesses| - 1])
  }

  lemma {:induction false} DedupDistinct(harnesses: seq<string>)
    ensures forall i, j | 0 <= i < j < |Dedup(harnesses)| :: Dedup(harnesses)[i] != Dedup(harnesses)[j]
  {
    if harnesses != [] {
      DedupDistinct(harnesses[..|harnesses| - 1]);
    }
  }

  /** Where a name first occurs. */
  function FirstAt(names: seq<string>, name: string): (i: nat)
    requires name in names
    ensures i < |names| && names[i] == name && name !in names[..i]
  {
    if names[0] == name then 0
    else
      assert names == [names[0]] + names[1..];
      var i := FirstAt(names[1..], name);
      assert names[..i + 1] == [names[0]] + names[1..][..i];
      i + 1
  }

  lemma {:induction false} FirstStays(names: seq<string>, more: seq<string>, name: string)
    requires name in names
    ensures name in names + more && FirstAt(names + more, name) == FirstAt(names, name)
  {
    assert (names + more)[0] == names[0] && (names + more)[1..] == names[1..] + more;
    if names[0] != name {
      FirstStays(names[1..], more, name);
    }
  }

  /** The names are kept in the order in which they first occur. */
  lemma {:induction false} DedupOrdered(harnesses: seq<string>, i: nat, j: nat)
    requires i < j < |Dedup(harnesses)|
    ensures var kept := Dedup(harnesses);
      kept[i] in harnesses && kept[j] in harnesses && FirstAt(harnesses, kept[i]) < FirstAt(harnesses, kept[j])
  {
    var n, kept := |harnesses| - 1, Dedup(harnesses);
    var before, last := harnesses[..n], harnesses[n];
    assert harnesses == before + [last];
    assert kept[i] in Dedup(before);
    FirstStays(before, [last], kept[i]);
    if j < |Dedup(before)| {
      DedupOrdered(before, i, j);
      FirstStays(before, [last], kept[j]);
    } else {
      assert forall m | 0 <= m < n :: harnesses[m] in before;
    }
  }

  /** `dedup_in_order`. */
  method DedupInOrder(harnesses: seq<string>) returns (kept: seq<string>)
    ensures kept == Dedup(harnesses)
  {
    kept := [];
    for i := 0 to |harnesses|
      invariant kept == Dedup(harnesses[..i])
    {
      assert harnesses[..i + 1][..i] == harnesses[..i];
      if harnesses[i] !in kept {
        kept := kept + [harnesses[i]];
      }
    }
    assert harnesses[..|harnesses|] == harnesses;
  }

  function Without(names: seq<string>, gone: seq<string>): (left: seq<string>)
    ensures forall h :: h in left <==> h in names && h !in gone
  {
    Keep(h => h !in gone, names)
  }

  /** The harnesses a provider account's record should be the default for. */
  function NewDefaults(r: Record, account: string, harnesses: seq<string>): (after: seq<string>)
  {
    if r.account == account then Dedup(harnesses) else Without(DefaultsOf(r), harnesses)
  }

  function WithDefaults(r: Record, after: seq<string>): (r': Record)
  {
    if after == [] then r.(metadata := r.metadata - {META_DEFAULT_FOR})
    else r.(metadata := r.metadata[META_DEFAULT_FOR := Join(after)])
  }

  /** A record after `account` was made the default for `harnesses`. */
  function Adjusted(r: Record, account: string, harnesses: seq<string>): (r': Record)
  {
    if !IsAccount(r) || NewDefaults(r, account, harnesses) == DefaultsOf(r) then r
    else WithDefaults(r, NewDefaults(r, account, harnesses))
  }
}
