/**
 The filterset parser: `or` below `and` below `not`, binary operators to the left, parentheses and the
 `binary()`, `package()` and `kind(test)` predicates.
 */
module FilterParser {
  import opened Basics
  import opened FilterLexer

  datatype PredicateName = BinaryName | PackageName | KindName

  datatype Filter =
    | Or(left: Filter, right: Filter)
    | And(left: Filter, right: Filter)
    | Not(inner: Filter)
    | Predicate(name: PredicateName, arg: string)

  function Spelling(name: PredicateName): (word: string)
    ensures IsWord(word) && !IsOperator(word)
  {
    match name
    case BinaryName => "binary"
    case PackageName => "package"
    case KindName => "kind"
  }

  /** The filter a call stands for. */
  function MakePredicate(call: string, rawArg: string): (r: Result<Filter, FilterError>)
  {
    if call != "binary" && call != "package" && call != "kind" then Err(UnsupportedPredicate(call, rawArg))
    else
      var name := if call == "binary" then BinaryName else if call == "package" then PackageName else KindName;
      match ExactName(Trim(rawArg))
      case Err(why) => Err(NotExact(call, Trim(rawArg), why))
      case Ok(arg) =>
        if name == KindName && arg != "test" then Err(UnsupportedPredicate(call, rawArg))
        else Ok(Predicate(name, arg))
  }

  // ----- the grammar, as functions of the tokens left -----

  /** A tree and the tokens behind it. */
  datatype Parsed = Parsed(filter: Filter, rest: seq<Token>)

  type Outcome = Result<Parsed, FilterError>

  predicate Starts(ts: seq<Token>, word: string)
  {
    ts != [] && ts[0] == Word(word)
  }

  function OrAt(ts: seq<Token>): (r: Outcome)
    ensures r.Ok? ==> |r.value.rest| < |ts|
    decreases |ts|, 5
  {
    var left :- AndAt(ts);
    OrRest(left.filter, left.rest)
  }

  function OrRest(left: Filter, ts: seq<Token>): (r: Outcome)
    ensures r.Ok? ==> |r.value.rest| <= |ts|
    decreases |ts|, 4
  {
    if !Starts(ts, "or") then Ok(Parsed(left, ts))
    else
      var right :- AndAt(ts[1..]);
      OrRest(Or(left, right.filter), right.rest)
  }

  function AndAt(ts: seq<Token>): (r: Outcome)
    ensures r.Ok? ==> |r.value.rest| < |ts|
    decreases |ts|, 3
  {
    var left :- NotAt(ts);
    AndRest(left.filter, left.rest)
  }

  function AndRest(left: Filter, ts: seq<Token>): (r: Outcome)
    ensures r.Ok? ==> |r.value.rest| <= |ts|
    decreases |ts|, 2
  {
    if !Starts(ts, "and") then Ok(Parsed(left, ts))
    else
      var right :- NotAt(ts[1..]);
      AndRest(And(left, right.filter), right.rest)
  }

  function NotAt(ts: seq<Token>): (r: Outcome)
    ensures r.Ok? ==> |r.value.rest| < |ts|
    decreases |ts|, 1
  {
    if !Starts(ts, "not") then AtomAt(ts)
    else
      var inner :- NotAt(ts[1..]);
      Ok(Parsed(Not(inner.filter), inner.rest))
  }

  function AtomAt(ts: seq<Token>): (r: Outcome)
    ensures r.Ok? ==> |r.value.rest| < |ts|
    decreases |ts|, 0
  {
    if ts == [] then Err(Unexpected(None))
    else if ts[0].Open? then
      var inner :- OrAt(ts[1..]);
      if inner.rest != [] && inner.rest[0].Close? then Ok(Parsed(inner.filter, inner.rest[1..]))
      else Err(Unbalanced)
    else if ts[0].Call? then
      var filter :- MakePredicate(ts[0].name, ts[0].arg);
      Ok(Parsed(filter, ts[1..]))
    else Err(Unexpected(Some(ts[0])))
  }

  /** The filter a text stands for. */
  function Parse(filterset: string): (r: Result<Filter, FilterError>)
  {
    var ts :- Tokens(filterset);
    ParseTokens(ts)
  }

  function ParseTokens(ts: seq<Token>): (r: Result<Filter, FilterError>)
  {
    var parsed :- OrAt(ts);
    if parsed.rest != [] then Err(Unexpected(Some(parsed.rest[0]))) else Ok(parsed.filter)
  }

  // ----- the parser as written: one position, advanced in place -----

  class Parser {
    const tokens: seq<Token>
    var at: nat

    constructor (tokens: seq<Token>)
      ensures this.tokens == tokens && at == 0
    {
      this.tokens := tokens;
      at := 0;
    }

    predicate Valid()
      reads this
    {
      at <= |tokens|
    }

    function Left(): seq<Token>
      requires Valid()
      reads this
    {
      tokens[at..]
    }

    /** The method answered what the grammar says, and left the position there. */
    predicate Answers(r: Result<Filter, FilterError>, spec: Outcome)
      reads this
    {
      if spec.Err? then r == Err(spec.error)
      else r == Ok(spec.value.filter) && Valid() && Left() == spec.value.rest
    }

    predicate IsNext(word: string)
      requires Valid()
      reads this
      ensures IsNext(word) == Starts(Left(), word)
    {
      at < |tokens| && tokens[at] == Word(word)
    }

    method ParseOr() returns (r: Result<Filter, FilterError>)
      requires Valid()
      modifies this
      ensures Answers(r, OrAt(old(Left())))
      decreases |tokens| - at, 3
    {
      r := ParseAnd();
      if r.Err? { return; }
      var left := r.value;
      while IsNext("or")
        invariant Valid() && OrAt(old(Left())) == OrRest(left, Left()) && at > old(at)
        decreases |tokens| - at
      {
        ghost var before := Left();
        at := at + 1;
        assert Left() == before[1..];
        r := ParseAnd();
        if r.Err? { return; }
        left := Or(left, r.value);
      }
      r := Ok(left);
    }

    method ParseAnd() returns (r: Result<Filter, FilterError>)
      requires Valid()
      modifies this
      ensures Answers(r, AndAt(old(Left())))
      decreases |tokens| - at, 2
    {
      r := ParseNot();
      if r.Err? { return; }
      var left := r.value;
      while IsNext("and")
        invariant Valid() && AndAt(old(Left())) == AndRest(left, Left()) && at > old(at)
        decreases |tokens| - at
      {
        ghost var before := Left();
        at := at + 1;
        assert Left() == before[1..];
        r := ParseNot();
        if r.Err? { return; }
        left := And(left, r.value);
      }
      r := Ok(left);
    }

    method ParseNot() returns (r: Result<Filter, FilterError>)
      requires Valid()
      modifies this
      ensures Answers(r, NotAt(old(Left())))
      decreases |tokens| - at, 1
    {
      if !IsNext("not") {
        r := ParseAtom();
        return;
      }
      ghost var before := Left();
      at := at + 1;
      assert Left() == before[1..];
      r := ParseNot();
      if r.Ok? {
        r := Ok(Not(r.value));
      }
    }

    method ParseAtom() returns (r: Result<Filter, FilterError>)
      requires Valid()
      modifies this
      ensures Answers(r, AtomAt(old(Left())))
      decreases |tokens| - at, 0
    {
      if at == |tokens| {
        return Err(Unexpected(None));
      }
      ghost var before := Left();
      var token := tokens[at];
      at := at + 1;
      assert Left() == before[1..] && token == before[0];
      if token.Open? {
        r := ParseOr();
        if r.Err? { return; }
        ghost var inner := Left();
        if at < |tokens| && tokens[at].Close? {
          at := at + 1;
          assert Left() == inner[1..];
        } else {
          r := Err(Unbalanced);
        }
      } else if token.Call? {
        r := MakePredicate(token.name, token.arg);
      } else {
        r := Err(Unexpected(Some(token)));
      }
    }
  }

  /** `parseFilterset`. */
  method ParseFilterset(filterset: string) returns (r: Result<Filter, FilterError>)
    ensures r == Parse(filterset)
  {
    var tokens := Tokenize(filterset);
    if tokens.Err? {
      return Err(tokens.error);
    }
    var parser := new Parser(tokens.value);
    assert parser.Left() == tokens.value;
    r := parser.ParseOr();
    if r.Ok? && parser.at < |parser.tokens| {
      r := Err(Unexpected(Some(parser.tokens[parser.at])));
    }
  }

  // ----- printing with as few parentheses as the grammar allows -----

  /** A name as it is written: bare where that is asked for and can be read, behind an equals sign otherwise. */
  function Written(name: string, bare: string -> bool): (arg: string)
  {
    if bare(name) && name != [] && name[0] != '=' && !IsSpace(name[0]) then name else "=" + name
  }

  function OrTokens(f: Filter, bare: string -> bool): (ts: seq<Token>)
    decreases f, 2
  {
    if f.Or? then OrTokens(f.left, bare) + [Word("or")] + AndTokens(f.right, bare) else AndTokens(f, bare)
  }

  function AndTokens(f: Filter, bare: string -> bool): (ts: seq<Token>)
    decreases f, 1
  {
    if f.And? then AndTokens(f.left, bare) + [Word("and")] + NotTokens(f.right, bare) else NotTokens(f, bare)
  }

  function NotTokens(f: Filter, bare: string -> bool): (ts: seq<Token>)
    decreases f, 0
  {
    match f
    case Not(inner) => [Word("not")] + NotTokens(inner, bare)
    case Predicate(name, arg) => [Call(Spelling(name), Written(arg, bare))]
    case Or(left, right) => [Open] + (OrTokens(left, bare) + [Word("or")] + AndTokens(right, bare)) + [Close]
    case And(left, right) => [Open] + (AndTokens(left, bare) + [Word("and")] + NotTokens(right, bare)) + [Close]
  }

  function Print(f: Filter, bare: string -> bool): (text: string)
  {
    Render(OrTokens(f, bare))
  }

  /** The trees the parser can return: exact names, and only `test` as a kind. */
  predicate IsExactFilter(f: Filter)
  {
    match f
    case Or(l, r) => IsExactFilter(l) && IsExactFilter(r)
    case And(l, r) => IsExactFilter(l) && IsExactFilter(r)
    case Not(inner) => IsExactFilter(inner)
    case Predicate(name, arg) => IsExact(arg) && (name == KindName ==> arg == "test")
  }

  lemma WrittenName(name: string, arg: string, bare: string -> bool)
    requires IsExact(name) && arg == Written(name, bare)
    ensures Writes(arg, name) && IsTrimmed(arg)
  {
    WrittenLast(arg, name);
  }

  lemma NameReadBack(name: string, arg: string, bare: string -> bool)
    requires IsExact(name) && arg == Written(name, bare)
    ensures ExactName(Trim(arg)) == Ok(name)
  {
    WrittenName(name, arg, bare);
    assert [] + arg + [] == arg;
    ExactNameReadBack([], arg, [], name);
  }

  lemma PredicateMade(f: Filter, raw: string)
    requires f.Predicate? && IsExactFilter(f) && ExactName(Trim(raw)) == Ok(f.arg)
    ensures MakePredicate(Spelling(f.name), raw) == Ok(f)
  {
  }

  /** A printed predicate is read back. */
  lemma PredicateReadBack(f: Filter, bare: string -> bool)
    requires f.Predicate? && IsExactFilter(f)
    ensures MakePredicate(Spelling(f.name), Written(f.arg, bare)) == Ok(f)
  {
    NameReadBack(f.arg, Written(f.arg, bare), bare);
    PredicateMade(f, Written(f.arg, bare));
  }

  /** Parsing `or`-level tokens is going on from their tree, whatever follows but an `and`. */
  lemma {:induction false} OrReadBack(f: Filter, bare: string -> bool, rest: seq<Token>)
    requires IsExactFilter(f) && !Starts(rest, "and")
    ensures OrAt(OrTokens(f, bare) + rest) == OrRest(f, rest)
    decreases f, 3
  {
    if f.Or? {
      var after := AndTokens(f.right, bare) + rest;
      assert OrTokens(f, bare) + rest == OrTokens(f.left, bare) + ([Word("or")] + after);
      OrReadBack(f.left, bare, [Word("or")] + after);
      AndReadBack(f.right, bare, rest);
      OrTakes(f.left, f.right, after, rest);
    } else {
      AndReadBack(f, bare, rest);
      OrOpens(f, AndTokens(f, bare) + rest, rest);
    }
  }

  lemma OrOpens(f: Filter, ts: seq<Token>, rest: seq<Token>)
    requires AndAt(ts) == AndRest(f, rest) && !Starts(rest, "and")
    ensures OrAt(ts) == OrRest(f, rest)
  {
    assert AndRest(f, rest) == Ok(Parsed(f, rest));
  }

  lemma OrTakes(left: Filter, right: Filter, ts: seq<Token>, rest: seq<Token>)
    requires AndAt(ts) == AndRest(right, rest) && !Starts(rest, "and")
    ensures OrRest(left, [Word("or")] + ts) == OrRest(Or(left, right), rest)
  {
    assert AndRest(right, rest) == Ok(Parsed(right, rest));
    assert ([Word("or")] + ts)[1..] == ts;
  }

  /** Parsing `and`-level tokens is going on from their tree, whatever follows. */
  lemma {:induction false} AndReadBack(f: Filter, bare: string -> bool, rest: seq<Token>)
    requires IsExactFilter(f)
    ensures AndAt(AndTokens(f, bare) + rest) == AndRest(f, rest)
    decreases f, 2
  {
    if f.And? {
      var after := NotTokens(f.right, bare) + rest;
      assert AndTokens(f, bare) + rest == AndTokens(f.left, bare) + ([Word("and")] + after);
      AndReadBack(f.left, bare, [Word("and")] + after);
      NotReadBack(f.right, bare, rest);
      AndTakes(f.left, f.right, after, rest);
    } else {
      NotReadBack(f, bare, rest);
    }
  }

  lemma AndTakes(left: Filter, right: Filter, ts: seq<Token>, rest: seq<Token>)
    requires NotAt(ts) == Ok(Parsed(right, rest))
    ensures AndRest(left, [Word("and")] + ts) == AndRest(And(left, right), rest)
  {
    assert ([Word("and")] + ts)[1..] == ts;
  }

  /** Parsing `not`-level tokens gives their tree and stops behind them, whatever follows. */
  lemma {:induction false} NotReadBack(f: Filter, bare: string -> bool, rest: seq<Token>)
    requires IsExactFilter(f)
    ensures NotAt(NotTokens(f, bare) + rest) == Ok(Parsed(f, rest))
    decreases f, 1
  {
    match f
    case Not(inner) =>
      var ts := NotTokens(f, bare) + rest;
      assert ts[1..] == NotTokens(inner, bare) + rest && ts[0] == Word("not");
      NotReadBack(inner, bare, rest);
    case Predicate(name, arg) =>
      var ts := NotTokens(f, bare) + rest;
      assert ts[1..] == rest && ts[0] == Call(Spelling(name), Written(arg, bare));
      PredicateReadBack(f, bare);
    case Or(_, _) => OrInParentheses(f, bare, rest);
    case And(_, _) => AndInParentheses(f, bare, rest);
  }

  lemma {:induction false} OrInParentheses(f: Filter, bare: string -> bool, rest: seq<Token>)
    requires IsExactFilter(f) && f.Or?
    ensures NotAt(NotTokens(f, bare) + rest) == Ok(Parsed(f, rest))
    decreases f, 0
  {
    var l, r := OrTokens(f.left, bare), AndTokens(f.right, bare);
    var inside, after := l + [Word("or")] + r, [Close] + rest;
    assert NotTokens(f, bare) + rest == [Open] + (inside + after);
    assert inside + after == l + ([Word("or")] + (r + after));
    OrReadBack(f.left, bare, [Word("or")] + (r + after));
    AndReadBack(f.right, bare, after);
    OrTakes(f.left, f.right, r + after, after);
    ParenthesesClose(f, inside, rest);
  }

  lemma {:induction false} AndInParentheses(f: Filter, bare: string -> bool, rest: seq<Token>)
    requires IsExactFilter(f) && f.And?
    ensures NotAt(NotTokens(f, bare) + rest) == Ok(Parsed(f, rest))
    decreases f, 0
  {
    var l, r := AndTokens(f.left, bare), NotTokens(f.right, bare);
    var inside, after := l + [Word("and")] + r, [Close] + rest;
    assert NotTokens(f, bare) + rest == [Open] + (inside + after);
    assert inside + after == l + ([Word("and")] + (r + after));
    AndReadBack(f.left, bare, [Word("and")] + (r + after));
    NotReadBack(f.right, bare, after);
    AndTakes(f.left, f.right, r + after, after);
    OrOpens(f, inside + after, after);
    ParenthesesClose(f, inside, rest);
  }

  lemma ParenthesesClose(f: Filter, inside: seq<Token>, rest: seq<Token>)
    requires OrAt(inside + ([Close] + rest)) == OrRest(f, [Close] + rest)
    ensures NotAt([Open] + (inside + ([Close] + rest))) == Ok(Parsed(f, rest))
  {
    var after := [Close] + rest;
    assert OrRest(f, after) == Ok(Parsed(f, after));
    assert ([Open] + (inside + after))[1..] == inside + after && after[1..] == rest;
    assert AtomAt([Open] + (inside + after)) == Ok(Parsed(f, rest));
  }

  // ----- parsing undoes printing -----

  predicate AllTokens(ts: seq<Token>)
  {
    forall t | t in ts :: IsToken(t)
  }

  lemma Between(a: seq<Token>, word: string, b: seq<Token>)
    requires AllTokens(a) && IsOperator(word) && AllTokens(b)
    ensures AllTokens(a + [Word(word)] + b) && AllTokens([Open] + (a + [Word(word)] + b) + [Close])
  {
  }

  lemma {:induction false} PrintedTokens(f: Filter, bare: string -> bool)
    requires IsExactFilter(f)
    ensures AllTokens(OrTokens(f, bare)) && AllTokens(AndTokens(f, bare)) && AllTokens(NotTokens(f, bare))
  {
    match f
    case Or(l, r) =>
      PrintedTokens(l, bare);
      PrintedTokens(r, bare);
      Between(OrTokens(l, bare), "or", AndTokens(r, bare));
      assert AndTokens(f, bare) == NotTokens(f, bare);
    case And(l, r) =>
      PrintedTokens(l, bare);
      PrintedTokens(r, bare);
      Between(AndTokens(l, bare), "and", NotTokens(r, bare));
      assert OrTokens(f, bare) == AndTokens(f, bare);
    case Not(inner) =>
      PrintedTokens(inner, bare);
      assert OrTokens(f, bare) == AndTokens(f, bare) == NotTokens(f, bare);
    case Predicate(name, arg) =>
      PrintedCall(name, arg, bare);
      assert OrTokens(f, bare) == AndTokens(f, bare) == NotTokens(f, bare);
  }

  lemma PrintedCall(name: PredicateName, arg: string, bare: string -> bool)
    requires IsExact(arg)
    ensures AllTokens([Call(Spelling(name), Written(arg, bare))])
  {
  }

  /**
   Parsing the printed text of a tree, whichever of its names are written bare, gives back exactly that tree
   and consumes all the input.
   */
  lemma ParseUndoesPrint(f: Filter, bare: string -> bool)
    requires IsExactFilter(f)
    ensures Parse(Print(f, bare)) == Ok(f)
  {
    var ts := OrTokens(f, bare);
    PrintedTokens(f, bare);
    TokensOfRender(ts);
    assert ts + [] == ts;
    OrReadBack(f, bare, []);
    assert OrRest(f, []) == Ok(Parsed(f, []));
  }

  lemma RefusedFirst(ts: seq<Token>, e: FilterError)
    requires NotAt(ts) == Err(e)
    ensures ParseTokens(ts) == Err(e)
  {
    assert AndAt(ts) == Err(e);
    assert OrAt(ts) == Err(e);
  }

  /** What is refused around a tree: nothing at all, a closing parenthesis too many or missing, an operand missing. */
  lemma RefusedAround(f: Filter, bare: string -> bool, rest: seq<Token>)
    requires IsExactFilter(f)
    ensures ParseTokens([]) == Err(Unexpected(None))
    ensures ParseTokens(OrTokens(f, bare) + ([Close] + rest)) == Err(Unexpected(Some(Close)))
    ensures ParseTokens([Open] + OrTokens(f, bare)) == Err(Unbalanced)
    ensures ParseTokens(OrTokens(f, bare) + [Word("or")]) == Err(Unexpected(None))
    ensures ParseTokens([Word("not")]) == Err(Unexpected(None))
  {
    var ts := OrTokens(f, bare);
    OrReadBack(f, bare, [Close] + rest);
    assert OrRest(f, [Close] + rest) == Ok(Parsed(f, [Close] + rest));
    OrReadBack(f, bare, [Word("or")]);
    assert [Word("or")][1..] == [] && AndAt([]) == Err(Unexpected(None));
    assert OrRest(f, [Word("or")]) == Err(Unexpected(None));
    OpenLeftOpen(f, bare);
    assert [Word("not")][1..] == [] && NotAt([]) == Err(Unexpected(None));
    RefusedFirst([], Unexpected(None));
    RefusedFirst([Word("not")], Unexpected(None));
  }

  lemma OpenLeftOpen(f: Filter, bare: string -> bool)
    requires IsExactFilter(f)
    ensures ParseTokens([Open] + OrTokens(f, bare)) == Err(Unbalanced)
  {
    var ts := OrTokens(f, bare);
    assert ts + [] == ts && ([Open] + ts)[1..] == ts;
    OrReadBack(f, bare, []);
    assert OrRest(f, []) == Ok(Parsed(f, []));
    assert AtomAt([Open] + ts) == Err(Unbalanced);
    RefusedFirst([Open] + ts, Unbalanced);
  }

  // ----- what the parser can return -----

  /** An answer whose tree is exact, and that leaves only tokens of the lexer. */
  predicate Exactly(r: Outcome)
  {
    r.Ok? ==> IsExactFilter(r.value.filter) && AllTokens(r.value.rest)
  }

  lemma {:induction false} OrExact(ts: seq<Token>)
    requires AllTokens(ts)
    ensures Exactly(OrAt(ts))
    decreases |ts|, 5
  {
    AndExact(ts);
    var left := AndAt(ts);
    if left.Ok? {
      OrRestExact(left.value.filter, left.value.rest);
    }
  }

  lemma {:induction false} OrRestExact(left: Filter, ts: seq<Token>)
    requires IsExactFilter(left) && AllTokens(ts)
    ensures Exactly(OrRest(left, ts))
    decreases |ts|, 4
  {
    if Starts(ts, "or") {
      AndExact(ts[1..]);
      var right := AndAt(ts[1..]);
      if right.Ok? {
        OrRestExact(Or(left, right.value.filter), right.value.rest);
      }
    }
  }

  lemma {:induction false} AndExact(ts: seq<Token>)
    requires AllTokens(ts)
    ensures Exactly(AndAt(ts))
    decreases |ts|, 3
  {
    NotIsExact(ts);
    var left := NotAt(ts);
    if left.Ok? {
      AndRestExact(left.value.filter, left.value.rest);
    }
  }

  lemma {:induction false} AndRestExact(left: Filter, ts: seq<Token>)
    requires IsExactFilter(left) && AllTokens(ts)
    ensures Exactly(AndRest(left, ts))
    decreases |ts|, 2
  {
    if Starts(ts, "and") {
      NotIsExact(ts[1..]);
      var right := NotAt(ts[1..]);
      if right.Ok? {
        AndRestExact(And(left, right.value.filter), right.value.rest);
      }
    }
  }

  lemma {:induction false} NotIsExact(ts: seq<Token>)
    requires AllTokens(ts)
    ensures Exactly(NotAt(ts))
    decreases |ts|, 1
  {
    if Starts(ts, "not") {
      NotIsExact(ts[1..]);
    } else if ts != [] && ts[0].Open? {
      OrExact(ts[1..]);
    } else if ts != [] && ts[0].Call? {
      assert IsToken(ts[0]);
      if MakePredicate(ts[0].name, ts[0].arg).Ok? {
        PredicateIff(ts[0].name, ts[0].arg, MakePredicate(ts[0].name, ts[0].arg).value);
      }
    }
  }

  /** Which calls stand for which predicates: `kind` for tests only, and each name as `ExactNameIff` reads it. */
  lemma PredicateIff(call: string, raw: string, f: Filter)
    requires forall c | c in raw :: !IsParen(c)
    ensures MakePredicate(call, raw) == Ok(f) <==>
      && f.Predicate? && IsExact(f.arg) && Writes(Trim(raw), f.arg)
      && ((call == "binary" && f.name == BinaryName) || (call == "package" && f.name == PackageName)
          || (call == "kind" && f.name == KindName && f.arg == "test"))
  {
    if f.Predicate? {
      ExactNameIff(raw, f.arg);
    }
  }

  /** Every tree read from any text is one that printing and parsing give back unchanged. */
  lemma ParsedIsReprintable(filterset: string, bare: string -> bool)
    requires Parse(filterset).Ok?
    ensures IsExactFilter(Parse(filterset).value)
    ensures Parse(Print(Parse(filterset).value, bare)) == Parse(filterset)
  {
    TokensAreTokens(filterset);
    OrExact(Tokens(filterset).value);
    ParseUndoesPrint(Parse(filterset).value, bare);
  }

  // ----- no spelling has fewer parentheses -----

  function Opens(ts: seq<Token>): (n: nat)
  {
    if ts == [] then 0 else (if ts[0].Open? then 1 else 0) + Opens(ts[1..])
  }

  lemma {:induction false} OpensAppend(a: seq<Token>, b: seq<Token>)
    ensures Opens(a + b) == Opens(a) + Opens(b)
  {
    if a == [] {
      assert a + b == b;
    } else {
      assert (a + b)[0] == a[0] && (a + b)[1..] == a[1..] + b;
      OpensAppend(a[1..], b);
    }
  }

  /** How many parentheses a tree needs where a whole filter, an operand of `or`'s right side, or one of `not` stands. */
  function OrParens(f: Filter): (n: nat)
    decreases f, 2
  {
    if f.Or? then OrParens(f.left) + AndParens(f.right) else AndParens(f)
  }

  function AndParens(f: Filter): (n: nat)
    decreases f, 1
  {
    if f.And? then AndParens(f.left) + NotParens(f.right) else NotParens(f)
  }

  function NotParens(f: Filter): (n: nat)
    decreases f, 0
  {
    match f
    case Not(inner) => NotParens(inner)
    case Predicate(_, _) => 0
    case Or(left, right) => 1 + OrParens(left) + AndParens(right)
    case And(left, right) => 1 + AndParens(left) + NotParens(right)
  }

  lemma Joined(a: seq<Token>, word: string, b: seq<Token>)
    ensures Opens(a + [Word(word)] + b) == Opens(a) + Opens(b)
    ensures Opens([Open] + (a + [Word(word)] + b) + [Close]) == 1 + Opens(a) + Opens(b)
  {
    var inside := a + [Word(word)] + b;
    OpensAppend(a, [Word(word)]);
    OpensAppend(a + [Word(word)], b);
    OpensAppend([Open], inside);
    OpensAppend([Open] + inside, [Close]);
    assert Opens([Word(word)]) == 0 && Opens([Close]) == 0 && Opens([Open]) == 1;
  }

  lemma {:induction false} ParensPrinted(f: Filter, bare: string -> bool)
    ensures Opens(OrTokens(f, bare)) == OrParens(f) && Opens(AndTokens(f, bare)) == AndParens(f)
    ensures Opens(NotTokens(f, bare)) == NotParens(f)
  {
    match f
    case Or(l, r) =>
      ParensPrinted(l, bare);
      ParensPrinted(r, bare);
      Joined(OrTokens(l, bare), "or", AndTokens(r, bare));
      assert AndTokens(f, bare) == NotTokens(f, bare);
    case And(l, r) =>
      ParensPrinted(l, bare);
      ParensPrinted(r, bare);
      Joined(AndTokens(l, bare), "and", NotTokens(r, bare));
      assert OrTokens(f, bare) == AndTokens(f, bare);
    case Not(inner) =>
      ParensPrinted(inner, bare);
      assert ([Word("not")] + NotTokens(inner, bare))[1..] == NotTokens(inner, bare);
      assert OrTokens(f, bare) == AndTokens(f, bare) == NotTokens(f, bare);
    case Predicate(name, arg) =>
      assert NotTokens(f, bare)[1..] == [] && OrTokens(f, bare) == AndTokens(f, bare) == NotTokens(f, bare);
      assert OrParens(f) == AndParens(f) == NotParens(f) == 0;
  }

  lemma TighterNeedsMore(f: Filter)
    ensures OrParens(f) <= AndParens(f) <= NotParens(f) <= OrParens(f) + 1
  {
    match f
    case Or(l, r) => assert AndParens(f) == NotParens(f);
    case And(l, r) => assert OrParens(f) == AndParens(f);
    case _ => assert OrParens(f) == AndParens(f) == NotParens(f);
  }

  /** What was parsed used up at least `needed` parentheses. */
  predicate Spent(ts: seq<Token>, had: int, r: Outcome, needed: Filter -> nat)
  {
    r.Ok? ==> Opens(ts) + had >= Opens(r.value.rest) + needed(r.value.filter)
  }

  lemma {:induction false} OrSpends(ts: seq<Token>)
    ensures Spent(ts, 0, OrAt(ts), OrParens)
    decreases |ts|, 5
  {
    AndSpends(ts);
    if AndAt(ts).Ok? {
      var left := AndAt(ts).value;
      TighterNeedsMore(left.filter);
      OrRestSpends(left.filter, left.rest);
    }
  }

  lemma {:induction false} OrRestSpends(left: Filter, ts: seq<Token>)
    ensures Spent(ts, OrParens(left), OrRest(left, ts), OrParens)
    decreases |ts|, 4
  {
    if Starts(ts, "or") {
      AndSpends(ts[1..]);
      if AndAt(ts[1..]).Ok? {
        var right := AndAt(ts[1..]).value;
        OrRestSpends(Or(left, right.filter), right.rest);
      }
    }
  }

  lemma {:induction false} AndSpends(ts: seq<Token>)
    ensures Spent(ts, 0, AndAt(ts), AndParens)
    decreases |ts|, 3
  {
    NotSpends(ts);
    if NotAt(ts).Ok? {
      var left := NotAt(ts).value;
      TighterNeedsMore(left.filter);
      AndRestSpends(left.filter, left.rest);
    }
  }

  lemma {:induction false} AndRestSpends(left: Filter, ts: seq<Token>)
    ensures Spent(ts, AndParens(left), AndRest(left, ts), AndParens)
    decreases |ts|, 2
  {
    if Starts(ts, "and") {
      NotSpends(ts[1..]);
      if NotAt(ts[1..]).Ok? {
        var right := NotAt(ts[1..]).value;
        AndRestSpends(And(left, right.filter), right.rest);
      }
    }
  }

  lemma {:induction false} NotSpends(ts: seq<Token>)
    ensures Spent(ts, 0, NotAt(ts), NotParens)
    decreases |ts|, 1
  {
    if Starts(ts, "not") {
      NotSpends(ts[1..]);
    } else {
      AtomSpends(ts);
    }
  }

  lemma {:induction false} AtomSpends(ts: seq<Token>)
    ensures Spent(ts, 0, AtomAt(ts), NotParens)
    decreases |ts|, 0
  {
    if ts != [] && ts[0].Open? {
      OrSpends(ts[1..]);
      if OrAt(ts[1..]).Ok? {
        TighterNeedsMore(OrAt(ts[1..]).value.filter);
      }
    }
  }

  /** Of all texts that parse to a tree, the printed one has the fewest parentheses. */
  lemma FewestParentheses(text: string, bare: string -> bool)
    requires Parse(text).Ok?
    ensures Opens(Tokens(text).value) >= Opens(OrTokens(Parse(text).value, bare))
  {
    OrSpends(Tokens(text).value);
    ParensPrinted(Parse(text).value, bare);
  }
}
