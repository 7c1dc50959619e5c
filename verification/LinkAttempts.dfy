/**
 Link attempts begun and not finished, and when each may next be polled: the server-side pacing of the
 device flow (sections 3.2 and 3.5 of RFC 8628). Instants are nanoseconds.
 */
module LinkAttempts {
  import opened Basics

  const NANOS: nat := 1_000_000_000

  /** The last instant the clock can represent. */
  const HORIZON: nat := 9_223_372_036_854_775_807 * NANOS + 999_999_999

  type LinkId = string
  type SessionToken = string
  type ProviderId = string

  datatype LinkError = NoSuchLink | Unavailable

  datatype Admission = Go(provider: ProviderId) | TooSoon(interval: nat) | Expired

  datatype Attempt = Attempt(
    session: SessionToken,
    provider: ProviderId,
    deadline: nat,
    interval: nat,
    nextPoll: nat)

  type Table = map<LinkId, Attempt>

  /** The instant `seconds` from now, if the clock has one. */
  function DeadlineAfter(now: nat, seconds: nat): (r: Result<nat, LinkError>)
  {
    if now + seconds * NANOS > HORIZON then Err(Unavailable) else Ok(now + seconds * NANOS)
  }

  /** An attempt lives strictly before its deadline. */
  predicate IsPast(deadline: nat, now: nat) { now >= deadline }

  function ForgetExpired(t: Table, now: nat): (t': Table)
  {
    map link | link in t && !IsPast(t[link].deadline, now) :: t[link]
  }

  // ----- the four operations, as functions of the table -----

  function Registered(t: Table, link: LinkId, session: SessionToken, provider: ProviderId,
                      expiresIn: nat, interval: nat, now: nat): (r: Result<Table, LinkError>)
  {
    var deadline :- DeadlineAfter(now, expiresIn);
    Ok(ForgetExpired(t, now)[link := Attempt(session, provider, deadline, interval, now)])
  }

  function Admitted(t: Table, link: LinkId, session: SessionToken, now: nat):
    (r: (Result<Admission, LinkError>, Table))
  {
    if link !in t || t[link].session != session then (Err(NoSuchLink), t)
    else
      var a := t[link];
      if IsPast(a.deadline, now) then (Ok(Expired), t - {link})
      else if now < a.nextPoll then (Ok(TooSoon(a.interval)), ForgetExpired(t, now))
      else
        match DeadlineAfter(now, a.interval)
        case Err(e) => (Err(e), t)
        case Ok(next) => (Ok(Go(a.provider)), ForgetExpired(t[link := a.(nextPoll := next)], now))
  }

  function Rescheduled(t: Table, link: LinkId, interval: nat, now: nat): (r: Result<Table, LinkError>)
  {
    var next :- DeadlineAfter(now, interval);
    Ok(if link in t then t[link := t[link].(interval := interval, nextPoll := next)] else t)
  }

  function Finished(t: Table, link: LinkId): (t': Table) { t - {link} }

  /** The attempts, changed in place under their lock. */
  class Attempts {
    var inner: Table

    constructor ()
      ensures inner == map[]
    {
      inner := map[];
    }

    method Register(link: LinkId, session: SessionToken, provider: ProviderId, expiresIn: nat, interval: nat, now: nat)
      returns (r: Result<(), LinkError>)
      modifies this
      ensures var spec := Registered(old(inner), link, session, provider, expiresIn, interval, now);
        if spec.Ok? then r == Ok(()) && inner == spec.value else r == Err(spec.error) && inner == old(inner)
    {
      var deadline :- DeadlineAfter(now, expiresIn);
      inner := ForgetExpired(inner, now);
      inner := inner[link := Attempt(session, provider, deadline, interval, now)];
      return Ok(());
    }

    method AdmitPoll(link: LinkId, session: SessionToken, now: nat) returns (r: Result<Admission, LinkError>)
      modifies this
      ensures (r, inner) == Admitted(old(inner), link, session, now)
    {
      if link !in inner || inner[link].session != session {
        return Err(NoSuchLink);
      }
      var attempt := inner[link];
      if IsPast(attempt.deadline, now) {
        inner := inner - {link};
        return Ok(Expired);
      }
      var admission := TooSoon(attempt.interval);
      if now >= attempt.nextPoll {
        var next :- DeadlineAfter(now, attempt.interval);
        inner := inner[link := attempt.(nextPoll := next)];
        admission := Go(attempt.provider);
      }
      inner := ForgetExpired(inner, now);
      return Ok(admission);
    }

    method Reschedule(link: LinkId, interval: nat, now: nat) returns (r: Result<(), LinkError>)
      modifies this
      ensures var spec := Rescheduled(old(inner), link, interval, now);
        if spec.Ok? then r == Ok(()) && inner == spec.value else r == Err(spec.error) && inner == old(inner)
    {
      var next :- DeadlineAfter(now, interval);
      if link in inner {
        inner := inner[link := inner[link].(interval := interval, nextPoll := next)];
      }
      return Ok(());
    }

    method Finish(link: LinkId)
      modifies this
      ensures inner == Finished(old(inner), link)
    {
      inner := inner - {link};
    }
  }

  // ----- runs -----

  /** What the provider answered a poll. */
  datatype Progress = Pending(interval: nat) | Denied | ProviderExpired | Approved

  datatype Op =
    | Begin(link: LinkId, session: SessionToken, provider: ProviderId, expiresIn: nat, interval: nat, now: nat)
    | Poll(link: LinkId, session: SessionToken, now: nat)
    | Answer(link: LinkId, progress: Progress, now: nat)

  datatype Begun = Begun(session: SessionToken, provider: ProviderId, deadline: nat)

  /** One time the provider was asked, and the interval then in force. */
  datatype Asked = Asked(link: LinkId, session: SessionToken, provider: ProviderId, at: nat, interval: nat)

  datatype State = State(
    table: Table,
    clock: nat,
    begun: map<LinkId, Begun>,
    over: set<LinkId>,          // finished, or answered as expired
    asked: seq<Asked>)

  function Empty(): State { State(map[], 0, map[], {}, []) }

  /** Clocks do not go back, a link id is issued once, and only a begun link is answered. */
  predicate Possible(st: State, op: Op)
  {
    op.now >= st.clock && (op.Begin? ==> op.link !in st.begun) && (op.Answer? ==> op.link in st.begun)
  }

  function Apply(st: State, op: Op): (st': State)
  {
    match op
    case Begin(link, session, provider, expiresIn, interval, now) =>
      var r := Registered(st.table, link, session, provider, expiresIn, interval, now);
      if r.Err? then st.(clock := now)
      else
        var begun := Begun(session, provider, r.value[link].deadline);
        st.(clock := now, table := r.value, begun := st.begun[link := begun])
    case Poll(link, session, now) =>
      var (r, table) := Admitted(st.table, link, session, now);
      var st1 := st.(clock := now, table := table);
      if r.Ok? && r.value.Expired? then st1.(over := st.over + {link})
      else if r.Ok? && r.value.Go? then
        st1.(asked := st.asked + [Asked(link, session, r.value.provider, now, st.table[link].interval)])
      else st1
    case Answer(link, Pending(interval), now) =>
      var r := Rescheduled(st.table, link, interval, now);
      st.(clock := now, table := if r.Ok? then r.value else st.table)
    case Answer(link, _, now) =>
      st.(clock := now, table := Finished(st.table, link), over := st.over + {link})
  }

  predicate Legal(st: State, ops: seq<Op>)
    decreases |ops|
  {
    ops == [] || (Possible(st, ops[0]) && Legal(Apply(st, ops[0]), ops[1..]))
  }

  function After(st: State, ops: seq<Op>): (st': State)
    decreases |ops|
  {
    if ops == [] then st else After(Apply(st, ops[0]), ops[1..])
  }

  // ----- the invariant -----

  predicate AttemptInv(st: State, link: LinkId, a: Attempt)
  {
    && link in st.begun && link !in st.over
    && st.begun[link] == Begun(a.session, a.provider, a.deadline)
  }

  predicate AskedInv(st: State, q: Asked)
  {
    && q.link in st.begun && q.session == st.begun[q.link].session && q.provider == st.begun[q.link].provider
    && q.at < st.begun[q.link].deadline && q.at <= st.clock
    // the next poll waits out the interval now in force, counted from every earlier one
    && (q.link in st.table ==> st.table[q.link].nextPoll >= q.at + st.table[q.link].interval * NANOS)
  }

  ghost predicate Inv(st: State)
  {
    && (forall link | link in st.table :: AttemptInv(st, link, st.table[link]))
    // an attempt that is not over and not past its deadline is still there
    && (forall link | link in st.begun ::
          link !in st.over && st.clock < st.begun[link].deadline ==> link in st.table)
    && (forall q | q in st.asked :: AskedInv(st, q))
    && Spaced(st.asked)
    && st.over <= st.begun.Keys
  }

  /** Two admissions of a link are as far apart as the interval in force at the second. */
  ghost predicate Spaced(asked: seq<Asked>)
  {
    forall i, j | 0 <= i < j < |asked| ::
      asked[i].link == asked[j].link ==> asked[j].at >= asked[i].at + asked[j].interval * NANOS
  }

  lemma InvBegin(st: State, op: Op)
    requires Inv(st) && Possible(st, op) && op.Begin?
    ensures Inv(Apply(st, op))
  {
    var st' := Apply(st, op);
    forall q | q in st'.asked ensures AskedInv(st', q) { assert AskedInv(st, q); }
    forall link | link in st'.table ensures AttemptInv(st', link, st'.table[link]) {
      if link != op.link || st'.table == st.table {
        assert AttemptInv(st, link, st.table[link]);
      }
    }
  }

  lemma InvAnswer(st: State, op: Op)
    requires Inv(st) && Possible(st, op) && op.Answer?
    ensures Inv(Apply(st, op))
  {
    var st' := Apply(st, op);
    forall q | q in st'.asked ensures AskedInv(st', q) { assert AskedInv(st, q); }
    forall link | link in st'.table ensures AttemptInv(st', link, st'.table[link]) {
      assert AttemptInv(st, link, st.table[link]);
    }
  }

  lemma InvPoll(st: State, op: Op)
    requires Inv(st) && Possible(st, op) && op.Poll?
    ensures Inv(Apply(st, op))
  {
    var st' := Apply(st, op);
    forall link | link in st'.table ensures AttemptInv(st', link, st'.table[link]) {
      assert AttemptInv(st, link, st.table[link]);
    }
    PollAsked(st, op);
    PollSpaced(st, op);
  }

  lemma PollAsked(st: State, op: Op)
    requires Inv(st) && Possible(st, op) && op.Poll?
    ensures var st' := Apply(st, op); forall q | q in st'.asked :: AskedInv(st', q)
  {
    var st' := Apply(st, op);
    forall q | q in st'.asked ensures AskedInv(st', q) {
      if q in st.asked {
        assert AskedInv(st, q);
      } else {
        assert AttemptInv(st, op.link, st.table[op.link]);
      }
    }
  }

  lemma PollSpaced(st: State, op: Op)
    requires Inv(st) && Possible(st, op) && op.Poll?
    ensures Spaced(Apply(st, op).asked)
  {
    var st' := Apply(st, op);
    forall i, j | 0 <= i < j < |st'.asked| && st'.asked[i].link == st'.asked[j].link
      ensures st'.asked[j].at >= st'.asked[i].at + st'.asked[j].interval * NANOS
    {
      if j == |st.asked| {
        assert st.asked[i] in st.asked && AskedInv(st, st.asked[i]);
      }
    }
  }

  lemma InvStep(st: State, op: Op)
    requires Inv(st) && Possible(st, op)
    ensures Inv(Apply(st, op))
  {
    match op
    case Begin(_, _, _, _, _, _) => InvBegin(st, op);
    case Poll(_, _, _) => InvPoll(st, op);
    case Answer(_, _, _) => InvAnswer(st, op);
  }

  lemma {:induction false} Reachable(st: State, ops: seq<Op>)
    requires Inv(st) && Legal(st, ops)
    ensures Inv(After(st, ops))
    decreases |ops|
  {
    if ops != [] {
      InvStep(st, ops[0]);
      Reachable(Apply(st, ops[0]), ops[1..]);
    }
  }

  // ----- every run -----

  /**
   In every run the provider is asked only on behalf of the session that began the attempt, at the
   provider it was begun with, and strictly before its deadline.
   */
  lemma AskedForItsOwner(ops: seq<Op>, q: Asked)
    requires Legal(Empty(), ops) && q in After(Empty(), ops).asked
    ensures var st := After(Empty(), ops);
      && q.link in st.begun && q.session == st.begun[q.link].session
      && q.provider == st.begun[q.link].provider && q.at < st.begun[q.link].deadline
  {
    Reachable(Empty(), ops);
    assert AskedInv(After(Empty(), ops), q);
  }

  /** In every run two admissions of one link are at least the interval in force at the second apart. */
  lemma AdmissionsSpaced(ops: seq<Op>, i: nat, j: nat)
    requires Legal(Empty(), ops)
    ensures var asked := After(Empty(), ops).asked;
      i < j < |asked| && asked[i].link == asked[j].link
      ==> asked[j].at >= asked[i].at + asked[j].interval * NANOS
  {
    Reachable(Empty(), ops);
  }

  /** Once a link is finished or answered as expired, no later operation asks for it or brings it back. */
  lemma {:induction false} OverForGood(st: State, ops: seq<Op>, link: LinkId)
    requires Inv(st) && Legal(st, ops) && link in st.over
    ensures var st' := After(st, ops);
      && link in st'.over && link !in st'.table
      && |st.asked| <= |st'.asked| && st'.asked[..|st.asked|] == st.asked
      && forall k | |st.asked| <= k < |st'.asked| :: st'.asked[k].link != link
    decreases |ops|
  {
    if link in st.table {
      assert false;
    }
    if ops != [] {
      var mid, st' := Apply(st, ops[0]), After(st, ops);
      InvStep(st, ops[0]);
      OverForGood(mid, ops[1..], link);
      assert mid.asked[..|st.asked|] == st.asked;
      assert st'.asked[..|st.asked|] == st'.asked[..|mid.asked|][..|st.asked|];
      forall k | |st.asked| <= k < |st'.asked| ensures st'.asked[k].link != link {
        if k < |mid.asked| {
          assert st'.asked[k] == st'.asked[..|mid.asked|][k] == mid.asked[k];
        }
      }
    }
  }

  /**
   In every run an attempt that is not over is remembered up to its deadline, and a poll is admitted
   exactly for the owner of such an attempt, once its next poll is due (and while the one after that is
   representable).
   */
  lemma AdmittedIff(ops: seq<Op>, link: LinkId, session: SessionToken, now: nat)
    requires Legal(Empty(), ops) && now >= After(Empty(), ops).clock
    ensures var st := After(Empty(), ops);
      link in st.begun && link !in st.over && now < st.begun[link].deadline ==> link in st.table
    ensures var st := After(Empty(), ops);
      Admitted(st.table, link, session, now).0 == Ok(Go(if link in st.begun then st.begun[link].provider else ""))
      <==>
      && link in st.begun && link !in st.over && st.begun[link].session == session
      && now < st.begun[link].deadline
      && link in st.table && st.table[link].nextPoll <= now
      && DeadlineAfter(now, st.table[link].interval).Ok?
  {
    Reachable(Empty(), ops);
    var st := After(Empty(), ops);
    if link in st.table {
      assert AttemptInv(st, link, st.table[link]);
    }
  }

  /** No next poll is further off than the interval in force. */
  predicate Prompt(st: State)
  {
    forall link | link in st.table :: st.table[link].nextPoll <= st.clock + st.table[link].interval * NANOS
  }

  lemma {:induction false} ReachablePrompt(st: State, ops: seq<Op>)
    requires Prompt(st) && Legal(st, ops)
    ensures Prompt(After(st, ops))
    decreases |ops|
  {
    if ops != [] {
      PromptStep(st, ops[0]);
      ReachablePrompt(Apply(st, ops[0]), ops[1..]);
    }
  }

  lemma PromptStep(st: State, op: Op)
    requires Prompt(st) && Possible(st, op)
    ensures Prompt(Apply(st, op))
  {
  }

  /**
   In every run the owner of an attempt that is not over is admitted after waiting out one interval, before
   the deadline and whatever happened so far.
   */
  lemma OneIntervalIsEnough(ops: seq<Op>, link: LinkId, now: nat)
    requires Legal(Empty(), ops)
    ensures var st := After(Empty(), ops);
      link in st.begun && link !in st.over && st.clock <= now < st.begun[link].deadline ==>
        && link in st.table
        && (now >= st.clock + st.table[link].interval * NANOS && DeadlineAfter(now, st.table[link].interval).Ok? ==>
              Admitted(st.table, link, st.begun[link].session, now).0 == Ok(Go(st.begun[link].provider)))
  {
    var st := After(Empty(), ops);
    ReachablePrompt(Empty(), ops);
    if now >= st.clock && link in st.begun {
      AdmittedIff(ops, link, st.begun[link].session, now);
    }
  }

  // ----- intervals that never shrink -----

  /** No pending answer for `link` narrows the interval that its attempt already has. */
  predicate Widening(st: State, ops: seq<Op>, link: LinkId)
    decreases |ops|
  {
    ops == [] || (Widens(st, ops[0], link) && Widening(Apply(st, ops[0]), ops[1..], link))
  }

  predicate Widens(st: State, op: Op, link: LinkId)
  {
    op.Answer? && op.link == link && op.progress.Pending? && link in st.table ==>
      op.progress.interval >= st.table[link].interval
  }

  ghost predicate Widened(st: State, link: LinkId)
  {
    && (forall q | q in st.asked :: q.link == link && link in st.table ==> q.interval <= st.table[link].interval)
    && (forall i, j | 0 <= i < j < |st.asked| ::
          st.asked[i].link == link == st.asked[j].link ==> st.asked[i].interval <= st.asked[j].interval)
  }

  lemma WidenedStep(st: State, op: Op, link: LinkId)
    requires Inv(st) && Widened(st, link) && Possible(st, op) && Widens(st, op, link)
    ensures Widened(Apply(st, op), link)
  {
    var st' := Apply(st, op);
    forall q | q in st'.asked && q.link == link && link in st'.table ensures q.interval <= st'.table[link].interval {
      WidenedAsked(st, op, q);
    }
    WidenedPairs(st, op, link);
  }

  lemma WidenedAsked(st: State, op: Op, q: Asked)
    requires Inv(st) && Widened(st, q.link) && Possible(st, op) && Widens(st, op, q.link)
    requires q in Apply(st, op).asked && q.link in Apply(st, op).table
    ensures q.interval <= Apply(st, op).table[q.link].interval
  {
    if q in st.asked {
      assert AskedInv(st, q);
    }
  }

  lemma WidenedPairs(st: State, op: Op, link: LinkId)
    requires Widened(st, link)
    ensures var asked := Apply(st, op).asked;
      forall i, j | 0 <= i < j < |asked| ::
        asked[i].link == link == asked[j].link ==> asked[i].interval <= asked[j].interval
  {
    var st' := Apply(st, op);
    forall i, j | 0 <= i < j < |st'.asked| && st'.asked[i].link == link == st'.asked[j].link
      ensures st'.asked[i].interval <= st'.asked[j].interval
    {
      if j == |st.asked| {
        assert st.asked[i] in st.asked;
      }
    }
  }

  lemma {:induction false} ReachableWidened(st: State, ops: seq<Op>, link: LinkId)
    requires Inv(st) && Widened(st, link) && Legal(st, ops) && Widening(st, ops, link)
    ensures Widened(After(st, ops), link)
    decreases |ops|
  {
    if ops != [] {
      WidenedStep(st, ops[0], link);
      InvStep(st, ops[0]);
      ReachableWidened(Apply(st, ops[0]), ops[1..], link);
    }
  }

  /**
   Where the interval of a link never shrinks, as section 3.5 of RFC 8628 has `slow_down` only widen it, two
   admissions of that link are at least the first one's interval apart, whatever happens to other links.
   */
  lemma WideningKeepsFirstInterval(ops: seq<Op>, i: nat, j: nat)
    requires Legal(Empty(), ops)
    ensures var asked := After(Empty(), ops).asked;
      i < j < |asked| && asked[i].link == asked[j].link && Widening(Empty(), ops, asked[i].link)
      ==> asked[j].at >= asked[i].at + asked[i].interval * NANOS
  {
    var asked := After(Empty(), ops).asked;
    if i < j < |asked| && asked[i].link == asked[j].link && Widening(Empty(), ops, asked[i].link) {
      AdmissionsSpaced(ops, i, j);
      ReachableWidened(Empty(), ops, asked[i].link);
    }
  }

  /** A pending answer that narrows the interval does let the next poll through sooner. */
  lemma NarrowedIntervalAdmitsSooner(ops: seq<Op>)
    requires ops == [Begin("l", "s", "github", 900, 10, 0), Poll("l", "s", 0),
                     Answer("l", Pending(1), 0), Poll("l", "s", 1 * NANOS)]
    ensures Legal(Empty(), ops)
    ensures var asked := After(Empty(), ops).asked;
      |asked| == 2 && asked[0].link == asked[1].link && asked[1].at < asked[0].at + asked[0].interval * NANOS
  {
    var st1 := Apply(Empty(), ops[0]);
    assert st1.table == map["l" := Attempt("s", "github", 900 * NANOS, 10, 0)];
    var st2 := Apply(st1, ops[1]);
    assert st2.table == map["l" := Attempt("s", "github", 900 * NANOS, 10, 10 * NANOS)];
    assert st2.asked == [Asked("l", "s", "github", 0, 10)];
    var st3 := Apply(st2, ops[2]);
    assert st3.table == map["l" := Attempt("s", "github", 900 * NANOS, 1, 1 * NANOS)];
    var st4 := Apply(st3, ops[3]);
    assert st4.asked == [Asked("l", "s", "github", 0, 10), Asked("l", "s", "github", 1 * NANOS, 1)];
    assert ops[3..] == [ops[3]] && ops[2..] == [ops[2]] + ops[3..] && ops[1..] == [ops[1]] + ops[2..];
    assert After(st4, []) == st4 && After(st3, ops[3..]) == st4 && After(st2, ops[2..]) == st4;
    assert After(st1, ops[1..]) == st4;
    assert Legal(st3, ops[3..]) && Legal(st2, ops[2..]) && Legal(st1, ops[1..]);
  }
}
