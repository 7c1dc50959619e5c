/** Which operation sets the pace of a link, and what every poll after it is answered. */
module LinkPaces {
  import opened Basics
  import opened LinkAttempts

  lemma {:induction false} Split(st: State, a: seq<Op>, b: seq<Op>)
    requires Legal(st, a + b)
    ensures Legal(st, a) && Legal(After(st, a), b) && After(st, a + b) == After(After(st, a), b)
    decreases |a|
  {
    if a == [] {
      assert a + b == b;
    } else {
      assert (a + b)[0] == a[0] && (a + b)[1..] == a[1..] + b;
      Split(Apply(st, a[0]), a[1..], b);
    }
  }

  /** The run taken apart at one operation. */
  lemma SplitAt(before: seq<Op>, op: Op, after: seq<Op>)
    requires Legal(Empty(), before + [op] + after)
    ensures var st := After(Empty(), before);
      && Inv(st) && Possible(st, op) && Inv(Apply(st, op)) && Legal(Apply(st, op), after)
      && After(Empty(), before + [op] + after) == After(Apply(st, op), after)
  {
    Split(Empty(), before + [op], after);
    Split(Empty(), before, [op]);
    var st := After(Empty(), before);
    assert [op][1..] == [] && After(st, [op]) == Apply(st, op);
    Reachable(Empty(), before);
    InvStep(st, op);
  }

  /** No operation of `ops` answers for `link`. */
  predicate Unanswered(ops: seq<Op>, link: LinkId)
  {
    forall op | op in ops :: op.Answer? ==> op.link != link
  }

  /** The operation sets the interval of `link`, next polled at `due`: it is a begin, or a pending answer in time. */
  predicate Sets(st: State, op: Op, link: LinkId, interval: nat, due: nat)
  {
    op.link == link &&
    match op
    case Begin(_, _, _, expiresIn, every, now) => now + expiresIn * NANOS <= HORIZON && interval == every && due == now
    case Poll(_, _, _) => false
    case Answer(_, progress, now) =>
      && progress == Pending(interval) && due == now + interval * NANOS <= HORIZON
      && link in st.begun && link !in st.over && now < st.begun[link].deadline
  }

  // ----- the interval in force -----

  /** While the link is remembered, it has this interval and is not due before `from`. */
  predicate Holds(st: State, link: LinkId, interval: nat, from: nat)
  {
    link in st.begun && (link in st.table ==> st.table[link].interval == interval && st.table[link].nextPoll >= from)
  }

  /** Behind the first `n`, every time the provider was asked for the link it was at this interval and no sooner. */
  predicate AskedSo(asked: seq<Asked>, n: nat, link: LinkId, interval: nat, from: nat)
  {
    forall k | n <= k < |asked| && asked[k].link == link :: asked[k].interval == interval && asked[k].at >= from
  }

  lemma SetHolds(st: State, op: Op, link: LinkId, interval: nat, due: nat)
    requires Inv(st) && Possible(st, op) && Sets(st, op, link, interval, due)
    ensures Holds(Apply(st, op), link, interval, due) && Apply(st, op).asked == st.asked
    ensures link in Apply(st, op).table && Apply(st, op).table[link].nextPoll == due
  {
  }

  lemma HoldsStep(st: State, op: Op, link: LinkId, interval: nat, from: nat)
    requires Possible(st, op) && Holds(st, link, interval, from) && (op.Answer? ==> op.link != link)
    ensures Holds(Apply(st, op), link, interval, from)
    ensures st.asked <= Apply(st, op).asked && AskedSo(Apply(st, op).asked, |st.asked|, link, interval, from)
  {
  }

  lemma {:induction false} HoldsRun(st: State, ops: seq<Op>, link: LinkId, interval: nat, from: nat)
    requires Legal(st, ops) && Holds(st, link, interval, from) && Unanswered(ops, link)
    ensures Holds(After(st, ops), link, interval, from)
    ensures st.asked <= After(st, ops).asked && AskedSo(After(st, ops).asked, |st.asked|, link, interval, from)
    decreases |ops|
  {
    if ops != [] {
      assert ops[0] in ops && forall op | op in ops[1..] :: op in ops;
      var mid := Apply(st, ops[0]);
      HoldsStep(st, ops[0], link, interval, from);
      HoldsRun(mid, ops[1..], link, interval, from);
      AskedSoFar(st.asked, mid.asked, After(st, ops).asked, link, interval, from);
    }
  }

  lemma AskedSoFar(a: seq<Asked>, b: seq<Asked>, c: seq<Asked>, link: LinkId, interval: nat, from: nat)
    requires a <= b <= c && AskedSo(b, |a|, link, interval, from) && AskedSo(c, |b|, link, interval, from)
    ensures AskedSo(c, |a|, link, interval, from)
  {
    forall k | |a| <= k < |c| && c[k].link == link ensures c[k].interval == interval && c[k].at >= from {
      assert k < |b| ==> c[k] == b[k];
    }
  }

  /**
   In every run, once a begin or a pending answer has set the interval of a link, and until the next answer for
   it, the provider is asked for it only at that interval, and not before the time it set. So a wider interval
   slows the link down from the answer on.
   */
  lemma LastWordPaces(before: seq<Op>, op: Op, after: seq<Op>, link: LinkId, interval: nat, due: nat)
    requires Legal(Empty(), before + [op] + after) && Unanswered(after, link)
    requires Sets(After(Empty(), before), op, link, interval, due)
    ensures var was, asked := After(Empty(), before).asked, After(Empty(), before + [op] + after).asked;
      was <= asked && AskedSo(asked, |was|, link, interval, due)
  {
    var st := After(Empty(), before);
    SplitAt(before, op, after);
    SetHolds(st, op, link, interval, due);
    HoldsRun(Apply(st, op), after, link, interval, due);
  }

  // ----- the very next poll -----

  /** The operation has the provider asked for `link`. */
  predicate Asks(st: State, op: Op, link: LinkId)
  {
    var asked := Apply(st, op).asked;
    |asked| == |st.asked| + 1 && asked[|st.asked|].link == link
  }

  /** No operation of the run asks or answers for `link`. */
  ghost predicate Undisturbed(st: State, ops: seq<Op>, link: LinkId)
    decreases |ops|
  {
    ops == [] ||
    (&& !Asks(st, ops[0], link) && (ops[0].Answer? ==> ops[0].link != link)
     && Undisturbed(Apply(st, ops[0]), ops[1..], link))
  }

  /** While the link is remembered, it has this interval and is due then. */
  predicate IsDue(st: State, link: LinkId, interval: nat, due: nat)
  {
    link in st.begun && (link in st.table ==> st.table[link].interval == interval && st.table[link].nextPoll == due)
  }

  lemma AskedIsDue(st: State, op: Op, link: LinkId)
    requires Inv(st) && Possible(st, op) && Asks(st, op, link)
    ensures var q := Apply(st, op).asked[|st.asked|];
      IsDue(Apply(st, op), link, q.interval, op.now + q.interval * NANOS)
  {
    assert AttemptInv(st, op.link, st.table[op.link]);
  }

  lemma DueStep(st: State, op: Op, link: LinkId, interval: nat, due: nat)
    requires Possible(st, op) && IsDue(st, link, interval, due)
    requires !Asks(st, op, link) && (op.Answer? ==> op.link != link)
    ensures IsDue(Apply(st, op), link, interval, due) && Apply(st, op).begun[link] == st.begun[link]
  {
  }

  lemma {:induction false} DueRun(st: State, ops: seq<Op>, link: LinkId, interval: nat, due: nat)
    requires Legal(st, ops) && IsDue(st, link, interval, due) && Undisturbed(st, ops, link)
    ensures IsDue(After(st, ops), link, interval, due) && After(st, ops).begun[link] == st.begun[link]
    decreases |ops|
  {
    if ops != [] {
      DueStep(st, ops[0], link, interval, due);
      DueRun(Apply(st, ops[0]), ops[1..], link, interval, due);
    }
  }

  /** What the owner's poll at `now` is answered, an attempt that is not over being due then. */
  lemma DueAnswers(st: State, link: LinkId, interval: nat, due: nat, now: nat)
    requires Inv(st) && IsDue(st, link, interval, due) && link !in st.over
    requires st.clock <= now < st.begun[link].deadline
    ensures Admitted(st.table, link, st.begun[link].session, now).0 ==
      if now < due then Ok(TooSoon(interval))
      else if now + interval * NANOS > HORIZON then Err(Unavailable)
      else Ok(Go(st.begun[link].provider))
  {
    assert link in st.table && AttemptInv(st, link, st.table[link]);
  }

  /**
   In every run the owner's next poll of an attempt that is not over is told too soon exactly before the time
   set by the last of: the begin, which sets no wait; a pending answer, which sets its own interval from then;
   and the last admission, which sets the interval in force from then.
   */
  lemma NextPollExactly(before: seq<Op>, op: Op, after: seq<Op>, link: LinkId, interval: nat, due: nat, now: nat)
    requires Legal(Empty(), before + [op] + after)
    requires var st := After(Empty(), before);
      && Undisturbed(Apply(st, op), after, link)
      && (|| Sets(st, op, link, interval, due)
          || (&& Asks(st, op, link) && interval == Apply(st, op).asked[|st.asked|].interval
              && due == op.now + interval * NANOS))
    ensures var st := After(Empty(), before + [op] + after);
      && link in st.begun
      && (link !in st.over && st.clock <= now < st.begun[link].deadline ==>
            Admitted(st.table, link, st.begun[link].session, now).0 ==
              if now < due then Ok(TooSoon(interval))
              else if now + interval * NANOS > HORIZON then Err(Unavailable)
              else Ok(Go(st.begun[link].provider)))
  {
    var st, st' := After(Empty(), before), After(Empty(), before + [op] + after);
    SplitAt(before, op, after);
    if Sets(st, op, link, interval, due) {
      SetHolds(st, op, link, interval, due);
    } else {
      AskedIsDue(st, op, link);
    }
    DueRun(Apply(st, op), after, link, interval, due);
    Reachable(Apply(st, op), after);
    if link !in st'.over && st'.clock <= now < st'.begun[link].deadline {
      DueAnswers(st', link, interval, due, now);
    }
  }

  // ----- what a begin fixes, and the other answers to a poll -----

  /** In every run a begin that can be dated fixes the owner, the provider and the deadline of its link for good. */
  lemma BegunAsAsked(before: seq<Op>, op: Op, after: seq<Op>)
    requires Legal(Empty(), before + [op] + after) && op.Begin? && op.now + op.expiresIn * NANOS <= HORIZON
    ensures var st := After(Empty(), before + [op] + after);
      && op.link in st.begun
      && st.begun[op.link] == Begun(op.session, op.provider, op.now + op.expiresIn * NANOS)
  {
    SplitAt(before, op, after);
    BegunStays(Apply(After(Empty(), before), op), after, op.link);
  }

  lemma {:induction false} BegunStays(st: State, ops: seq<Op>, link: LinkId)
    requires Legal(st, ops) && link in st.begun
    ensures link in After(st, ops).begun && After(st, ops).begun[link] == st.begun[link]
    decreases |ops|
  {
    if ops != [] {
      BegunStays(Apply(st, ops[0]), ops[1..], link);
    }
  }

  /**
   In every run a poll for a link that was not begun, is over, or is another session's is told there is no such
   link, and changes nothing; the owner's poll at the deadline or later is told it expired, and the attempt is
   gone, unless it had been forgotten before.
   */
  lemma NoAdmission(ops: seq<Op>, link: LinkId, session: SessionToken, now: nat)
    requires Legal(Empty(), ops) && now >= After(Empty(), ops).clock
    ensures var st := After(Empty(), ops);
      var (r, table) := Admitted(st.table, link, session, now);
      if link !in st.begun || link in st.over || st.begun[link].session != session then
        r == Err(NoSuchLink) && table == st.table
      else
        now >= st.begun[link].deadline ==>
          if link in st.table then r == Ok(Expired) && table == st.table - {link}
          else r == Err(NoSuchLink) && table == st.table
  {
    Reachable(Empty(), ops);
    var st := After(Empty(), ops);
    if link in st.table {
      assert AttemptInv(st, link, st.table[link]);
    }
  }

  /** A begin that can be dated, and a poll before the deadline that is not refused, leave no expired attempt behind. */
  lemma ExpiredForgotten(ops: seq<Op>, op: Op, link: LinkId)
    requires Legal(Empty(), ops + [op])
    requires || (op.Begin? && op.now + op.expiresIn * NANOS <= HORIZON && op.expiresIn > 0)
             || (&& op.Poll?
                 && var r := Admitted(After(Empty(), ops).table, op.link, op.session, op.now).0;
                    r.Ok? && !r.value.Expired?)
    ensures var st := After(Empty(), ops + [op]);
      link in st.table ==> link in st.begun && op.now < st.begun[link].deadline
  {
    assert ops + [op] + [] == ops + [op];
    SplitAt(ops, op, []);
    var st := Apply(After(Empty(), ops), op);
    if link in st.table {
      assert AttemptInv(st, link, st.table[link]);
    }
  }
}
