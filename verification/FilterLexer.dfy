/** Splitting a nextest filterset into tokens, and the exact name a predicate argument stands for. */
module FilterLexer {
  import opened Basics

  datatype Token = Open | Close | Word(word: string) | Call(name: string, arg: string)

  /** Why an argument is not an exact name. */
  datatype Inexact = Matcher(c: char) | GlobSyntax | EmptyArgument

  datatype FilterError =
    | Unrecognised(rest: string)            // no token starts here
    | Unexpected(token: Option<Token>)      // `None` is the end of the input
    | Unbalanced
    | UnsupportedPredicate(name: string, arg: string)
    | NotExact(name: string, arg: string, why: Inexact)

  // ----- characters -----

  /** JavaScript white space, as `\s` and `trim` read it. */
  predicate IsSpace(c: char)
  {
    || '\U{0009}' <= c <= '\U{000D}' || c == ' ' || c == '\U{00A0}' || c == '\U{1680}'
    || '\U{2000}' <= c <= '\U{200A}' || c == '\U{2028}' || c == '\U{2029}' || c == '\U{202F}'
    || c == '\U{205F}' || c == '\U{3000}' || c == '\U{FEFF}'
  }

  predicate IsWordStart(c: char) { 'A' <= c <= 'Z' || 'a' <= c <= 'z' || c == '_' }

  predicate IsWordChar(c: char) { IsWordStart(c) || '0' <= c <= '9' || c == '-' }

  predicate IsParen(c: char) { c == '(' || c == ')' }

  predicate NotParen(c: char) { !IsParen(c) }

  predicate IsGlob(c: char) { c in "*?[]{}," }

  predicate IsOperator(word: string) { word == "or" || word == "and" || word == "not" }

  /** How many characters from the front satisfy `p`: what a greedy `[…]*` takes. */
  function Run(p: char -> bool, s: string): (n: nat)
    ensures n <= |s|
  {
    if s != [] && p(s[0]) then 1 + Run(p, s[1..]) else 0
  }

  lemma {:induction false} RunHolds(p: char -> bool, s: string)
    ensures forall c | c in s[..Run(p, s)] :: p(c)
  {
    if s != [] && p(s[0]) {
      RunHolds(p, s[1..]);
      assert s[..Run(p, s)] == [s[0]] + s[1..][..Run(p, s[1..])];
    }
  }

  lemma {:induction false} RunIs(p: char -> bool, run: string, rest: string)
    requires forall c | c in run :: p(c)
    requires rest == [] || !p(rest[0])
    ensures Run(p, run + rest) == |run|
  {
    if run == [] {
      assert run + rest == rest;
    } else {
      assert (run + rest)[1..] == run[1..] + rest && (run + rest)[0] == run[0];
      RunIs(p, run[1..], rest);
    }
  }

  // ----- the lexer -----

  /** The length of the word at the front, `[A-Za-z_][A-Za-z0-9_-]*`; zero when there is none. */
  function WordLength(s: string): (n: nat)
    ensures n <= |s|
  {
    if s != [] && IsWordStart(s[0]) then Run(IsWordChar, s) else 0
  }

  /** The call at the front, a word and a parenthesised argument without parentheses. */
  function CallAt(s: string): (r: Option<(Token, nat)>)
    ensures r.Some? ==> r.value.0.Call? && 0 < r.value.1 <= |s|
  {
    var w := WordLength(s);
    if w == 0 || w == |s| || s[w] != '(' then None
    else
      var a := Run(NotParen, s[w + 1..]);
      if w + 1 + a == |s| || s[w + 1 + a] != ')' then None
      else Some((Call(s[..w], s[w + 1..w + 1 + a]), w + a + 2))
  }

  datatype Lexeme = Skip(used: nat) | Emit(token: Token, used: nat) | Bad

  /** What the front of a non-empty text is. */
  function NextLexeme(s: string): (l: Lexeme)
    requires s != []
    ensures !l.Bad? ==> 0 < l.used <= |s|
  {
    if IsSpace(s[0]) then Skip(1)
    else if s[0] == '(' then Emit(Open, 1)
    else if s[0] == ')' then Emit(Close, 1)
    else
      var call := CallAt(s);
      if call.Some? && !IsOperator(call.value.0.name) then Emit(call.value.0, call.value.1)
      else
        var w := WordLength(s);
        if w > 0 && IsOperator(s[..w]) then Emit(Word(s[..w]), w) else Bad
  }

  /** The tokens of a text, or the place where none starts. */
  function Tokens(s: string): (r: Result<seq<Token>, FilterError>)
  {
    if s == [] then Ok([])
    else
      match NextLexeme(s)
      case Skip(n) => Tokens(s[n..])
      case Emit(token, n) => var rest :- Tokens(s[n..]); Ok([token] + rest)
      case Bad => Err(Unrecognised(s))
  }

  /** The tokens of a text after those found before it. */
  function Scan(before: seq<Token>, s: string): Result<seq<Token>, FilterError>
    decreases |s|
  {
    if s == [] then Ok(before)
    else
      match NextLexeme(s)
      case Skip(n) => Scan(before, s[n..])
      case Emit(token, n) => Scan(before + [token], s[n..])
      case Bad => Err(Unrecognised(s))
  }

  function After(before: seq<Token>, r: Result<seq<Token>, FilterError>): Result<seq<Token>, FilterError>
  {
    if r.Ok? then Ok(before + r.value) else r
  }

  lemma {:induction false} ScanIsTokens(before: seq<Token>, s: string)
    ensures Scan(before, s) == After(before, Tokens(s))
    decreases |s|
  {
    if s == [] {
      assert before + [] == before;
    } else {
      var l := NextLexeme(s);
      if l.Skip? {
        ScanIsTokens(before, s[l.used..]);
      } else if l.Emit? {
        ScanIsTokens(before + [l.token], s[l.used..]);
        var rest := Tokens(s[l.used..]);
        if rest.Ok? {
          assert before + ([l.token] + rest.value) == before + [l.token] + rest.value;
        }
      }
    }
  }

  lemma ScanAll(s: string)
    ensures Scan([], s) == Tokens(s)
  {
    ScanIsTokens([], s);
    var r := Tokens(s);
    assert r.Ok? ==> [] + r.value == r.value;
  }

  lemma ScanSkip(before: seq<Token>, s: string, rest: string, n: nat)
    requires s != [] && n <= |s| && rest == s[n..] && NextLexeme(s) == Skip(n)
    ensures Scan(before, rest) == Scan(before, s)
  {
  }

  lemma ScanEmit(before: seq<Token>, s: string, rest: string, n: nat, token: Token)
    requires s != [] && n <= |s| && rest == s[n..] && NextLexeme(s) == Emit(token, n)
    ensures Scan(before + [token], rest) == Scan(before, s)
  {
  }

  lemma FurtherOn(text: string, at: nat, n: nat)
    requires at + n <= |text|
    ensures text[at + n..] == text[at..][n..]
  {
  }

  /** One turn of `tokenize`'s loop: the tokens found so far, and the place reached; or no token starts here. */
  method TakeLexeme(text: string, at: nat, tokens: seq<Token>) returns (found: bool, longer: seq<Token>, next: nat)
    requires at < |text|
    ensures found ==> at < next <= |text| && Scan(longer, text[next..]) == Scan(tokens, text[at..])
    ensures !found ==> Scan(tokens, text[at..]) == Err(Unrecognised(text[at..]))
  {
    match NextLexeme(text[at..])
    case Skip(used) =>
      found, longer, next := true, tokens, at + used;
      FurtherOn(text, at, used);
      ScanSkip(tokens, text[at..], text[next..], used);
    case Emit(token, used) =>
      found, longer, next := true, tokens + [token], at + used;
      FurtherOn(text, at, used);
      ScanEmit(tokens, text[at..], text[next..], used, token);
    case Bad =>
      found, longer, next := false, tokens, at;
  }

  /** `tokenize`, with its position advanced in a loop. */
  method Tokenize(filterset: string) returns (r: Result<seq<Token>, FilterError>)
    ensures r == Tokens(filterset)
  {
    var tokens: seq<Token> := [];
    var at, found := 0, true;
    ghost var whole := Tokens(filterset);
    ScanAll(filterset);
    assert filterset[at..] == filterset;
    while at < |filterset|
      invariant at <= |filterset|
      invariant Scan(tokens, filterset[at..]) == whole
    {
      var before := at;
      found, tokens, at := TakeLexeme(filterset, at, tokens);
      if !found {
        return Err(Unrecognised(filterset[before..]));
      }
    }
    assert filterset[at..] == [];
    return Ok(tokens);
  }

  // ----- well-formed tokens and their text -----

  /** A token the lexer can make. */
  predicate IsToken(t: Token)
  {
    match t
    case Open => true
    case Close => true
    case Word(w) => IsOperator(w)
    case Call(name, arg) => IsWord(name) && !IsOperator(name) && forall c | c in arg :: !IsParen(c)
  }

  predicate IsWord(w: string)
  {
    w != [] && IsWordStart(w[0]) && forall c | c in w :: IsWordChar(c)
  }

  lemma NextIsToken(s: string)
    requires s != []
    ensures NextLexeme(s).Emit? ==> IsToken(NextLexeme(s).token)
  {
    if !IsSpace(s[0]) && !IsParen(s[0]) && CallAt(s).Some? && !IsOperator(CallAt(s).value.0.name) {
      CallIsToken(s);
    }
  }

  lemma CallIsToken(s: string)
    requires CallAt(s).Some? && !IsOperator(CallAt(s).value.0.name)
    ensures IsToken(CallAt(s).value.0)
  {
    var w := WordLength(s);
    RunHolds(IsWordChar, s);
    RunHolds(NotParen, s[w + 1..]);
    var a := Run(NotParen, s[w + 1..]);
    assert s[w + 1..w + 1 + a] == s[w + 1..][..a];
    assert s[..w][0] == s[0];
    assert forall c | c in s[w + 1..][..a] :: NotParen(c);
  }

  lemma {:induction false} TokensAreTokens(s: string)
    ensures Tokens(s).Ok? ==> forall t | t in Tokens(s).value :: IsToken(t)
    decreases |s|
  {
    if s != [] {
      NextIsToken(s);
      match NextLexeme(s)
      case Skip(n) => TokensAreTokens(s[n..]);
      case Emit(_, n) => TokensAreTokens(s[n..]);
      case Bad =>
    }
  }

  function TokenText(t: Token): (text: string)
  {
    match t
    case Open => "("
    case Close => ")"
    case Word(w) => w
    case Call(name, arg) => name + "(" + arg + ")"
  }

  /** The tokens' texts, one space between two. */
  function Render(ts: seq<Token>): (text: string)
  {
    if ts == [] then "" else TokenText(ts[0]) + if |ts| == 1 then "" else " " + Render(ts[1..])
  }

  lemma WordThen(w: string, rest: string)
    requires IsWord(w) && (rest == [] || !IsWordChar(rest[0]))
    ensures WordLength(w + rest) == |w| && (w + rest)[..|w|] == w
  {
    RunIs(IsWordChar, w, rest);
    assert (w + rest)[0] == w[0];
  }

  lemma CallThen(call: Token, rest: string, s: string, n: nat)
    requires call.Call? && IsToken(call) && s == call.name + ("(" + call.arg + ")" + rest)
    requires n == |call.name| + |call.arg| + 2
    ensures CallAt(s) == Some((call, n))
  {
    var tail := "(" + call.arg + ")" + rest;
    WordThen(call.name, tail);
    RunIs(NotParen, call.arg, ")" + rest);
    CallSlices(call.name, call.arg, rest);
  }

  lemma CallSlices(name: string, arg: string, rest: string)
    ensures var s, w, e := name + ("(" + arg + ")" + rest), |name|, |name| + 1 + |arg|;
      && e < |s| && s[w] == '(' && s[w + 1..] == arg + (")" + rest) && s[w + 1..e] == arg && s[e] == ')'
  {
    var s, e := name + ("(" + arg + ")" + rest), |name| + 1 + |arg|;
    assert s[|name|..] == "(" + arg + ")" + rest;
    var after := s[|name| + 1..];
    assert after == arg + (")" + rest);
    assert after[..|arg|] == arg && after[|arg|] == ')';
    assert s[|name| + 1..e] == after[..|arg|] && s[e] == after[|arg|];
  }

  /** A token's text, before a space or the end, is read back as that token and no more. */
  lemma LexemeOfText(t: Token, rest: string)
    requires IsToken(t) && (rest == [] || rest[0] == ' ')
    ensures var s := TokenText(t) + rest; s != [] && NextLexeme(s) == Emit(t, |TokenText(t)|)
  {
    match t
    case Open =>
    case Close =>
    case Word(w) => LexemeOfOperator(w, rest);
    case Call(_, _) => LexemeOfCall(t, rest, TokenText(t) + rest, |TokenText(t)|);
  }

  lemma LexemeOfCall(call: Token, rest: string, s: string, n: nat)
    requires IsToken(call) && call.Call? && s == TokenText(call) + rest && n == |TokenText(call)|
    ensures s != [] && NextLexeme(s) == Emit(call, n)
  {
    CallStart(call, rest, s);
    CallText(call, rest, s, n);
    CallThen(call, rest, s, n);
    CallIsNext(s, call, n);
  }

  lemma CallStart(call: Token, rest: string, s: string)
    requires IsToken(call) && call.Call? && s == TokenText(call) + rest
    ensures s != [] && IsWordStart(s[0])
  {
    assert s[0] == call.name[0];
  }

  lemma CallText(call: Token, rest: string, s: string, n: nat)
    requires call.Call? && s == TokenText(call) + rest && n == |TokenText(call)|
    ensures s == call.name + ("(" + call.arg + ")" + rest) && n == |call.name| + |call.arg| + 2
  {
  }

  lemma CallIsNext(s: string, call: Token, n: nat)
    requires s != [] && IsWordStart(s[0]) && CallAt(s) == Some((call, n)) && IsToken(call)
    ensures NextLexeme(s) == Emit(call, n)
  {
  }

  lemma LexemeOfOperator(w: string, rest: string)
    requires IsOperator(w) && (rest == [] || rest[0] == ' ')
    ensures w + rest != [] && NextLexeme(w + rest) == Emit(Word(w), |w|)
  {
    assert IsWord(w);
    WordThen(w, rest);
    assert (w + rest)[0] == w[0];
    assert |w + rest| > |w| ==> (w + rest)[|w|] == ' ';
  }

  lemma TokensAfter(t: Token, rest: string)
    requires IsToken(t) && (rest == [] || rest[0] == ' ')
    ensures Tokens(TokenText(t) + rest) == After([t], Tokens(rest))
  {
    LexemeOfText(t, rest);
    assert (TokenText(t) + rest)[|TokenText(t)|..] == rest;
  }

  /** Lexing undoes rendering. */
  lemma {:induction false} TokensOfRender(ts: seq<Token>)
    requires forall t | t in ts :: IsToken(t)
    ensures Tokens(Render(ts)) == Ok(ts)
  {
    if ts == [] {
    } else if |ts| == 1 {
      TokensAfter(ts[0], "");
      assert TokenText(ts[0]) + "" == Render(ts) && [ts[0]] + [] == ts;
    } else {
      var rest := " " + Render(ts[1..]);
      TokensAfter(ts[0], rest);
      TokensOfRender(ts[1..]);
      assert rest[1..] == Render(ts[1..]) && NextLexeme(rest) == Skip(1);
      assert Tokens(rest) == Ok(ts[1..]);
      assert [ts[0]] + ts[1..] == ts;
    }
  }

  // ----- exact names -----

  function TrimStart(s: string): (t: string)
  {
    s[Run(IsSpace, s)..]
  }

  function TrimEnd(s: string): (t: string)
    ensures t <= s && (t != [] ==> !IsSpace(t[|t| - 1]))
  {
    if s != [] && IsSpace(s[|s| - 1]) then TrimEnd(s[..|s| - 1]) else s
  }

  function Trim(s: string): (t: string)
  {
    TrimEnd(TrimStart(s))
  }

  /** What a predicate's argument names, if it is no pattern: an equals sign in front is optional. */
  function ExactName(arg: string): (r: Result<string, Inexact>)
  {
    var name := if arg != [] && arg[0] == '=' then arg[1..] else arg;
    if name != [] && name[0] in "~/#" then Err(Matcher(name[0]))
    else if exists c | c in name :: IsGlob(c) then Err(GlobSyntax)
    else if name == [] then Err(EmptyArgument)
    else Ok(name)
  }

  /** The names a parsed filter can hold. */
  predicate IsExact(name: string)
  {
    && name != [] && name[0] !in "~/#" && !IsSpace(name[|name| - 1])
    && forall c | c in name :: !IsGlob(c) && !IsParen(c)
  }

  predicate AllSpace(s: string)
  {
    forall c | c in s :: IsSpace(c)
  }

  /** Nothing at either end to trim. */
  predicate IsTrimmed(s: string)
  {
    s == [] || (!IsSpace(s[0]) && !IsSpace(s[|s| - 1]))
  }

  lemma {:induction false} TrimEndIs(core: string, b: string)
    requires AllSpace(b) && (core == [] || !IsSpace(core[|core| - 1]))
    ensures TrimEnd(core + b) == core
  {
    if b == [] {
      assert core + b == core;
    } else {
      assert (core + b)[..|core + b| - 1] == core + b[..|b| - 1];
      TrimEndIs(core, b[..|b| - 1]);
    }
  }

  /** Trimming takes the white space off both ends, and nothing else. */
  lemma TrimIs(a: string, core: string, b: string)
    requires AllSpace(a) && IsTrimmed(core) && AllSpace(b)
    ensures Trim(a + core + b) == core
  {
    var s := a + core + b;
    if core == [] {
      RunIs(IsSpace, a + b, []);
      assert s == a + b + [] && TrimStart(s) == [];
    } else {
      RunIs(IsSpace, a, core + b);
      assert s == a + (core + b) && TrimStart(s) == core + b;
      TrimEndIs(core, b);
    }
  }

  lemma {:induction false} TrimEndSplits(s: string) returns (b: string)
    ensures s == TrimEnd(s) + b && AllSpace(b)
  {
    b := [];
    if s != [] && IsSpace(s[|s| - 1]) {
      b := TrimEndSplits(s[..|s| - 1]);
      assert s == s[..|s| - 1] + [s[|s| - 1]];
      b := b + [s[|s| - 1]];
    }
  }

  lemma {:induction false} RunStops(p: char -> bool, s: string)
    ensures Run(p, s) < |s| ==> !p(s[Run(p, s)])
  {
    if s != [] && p(s[0]) {
      RunStops(p, s[1..]);
    }
  }

  lemma TrimStartSplits(s: string) returns (a: string)
    ensures s == a + TrimStart(s) && AllSpace(a) && (TrimStart(s) != [] ==> !IsSpace(TrimStart(s)[0]))
  {
    a := s[..Run(IsSpace, s)];
    RunHolds(IsSpace, s);
    RunStops(IsSpace, s);
  }

  /** Every text is what trimming leaves of it between two stretches of white space. */
  lemma TrimSplits(s: string) returns (a: string, b: string)
    ensures s == a + Trim(s) + b && AllSpace(a) && AllSpace(b) && IsTrimmed(Trim(s))
  {
    a := TrimStartSplits(s);
    b := TrimEndSplits(TrimStart(s));
    Associate(a, Trim(s), b);
  }

  /** The two ways to write a name: behind an equals sign, or bare where that cannot be misread. */
  predicate Writes(arg: string, name: string)
  {
    arg == "=" + name || (arg == name && name != [] && name[0] != '=')
  }

  lemma EqualsTaken(name: string)
    ensures ("=" + name)[0] == '=' && ("=" + name)[1..] == name
  {
  }

  lemma ReadIsWritten(arg: string, name: string)
    requires ExactName(arg) == Ok(name)
    ensures Writes(arg, name) && name != [] && name[0] !in "~/#" && forall c | c in name :: !IsGlob(c)
  {
    EqualsTaken(name);
    assert arg != [] && arg[0] == '=' ==> arg == "=" + arg[1..];
  }

  lemma WrittenIsRead(arg: string, name: string)
    requires IsExact(name) && Writes(arg, name)
    ensures ExactName(arg) == Ok(name)
  {
    EqualsTaken(name);
  }

  lemma WrittenLast(arg: string, name: string)
    requires Writes(arg, name) && name != []
    ensures arg[|arg| - 1] == name[|name| - 1] && forall c | c in name :: c in arg
  {
    assert arg == "=" + name ==> arg[1..] == name;
  }

  /** Exactly these arguments are read as a name, and as that name. */
  lemma ExactNameIff(raw: string, name: string)
    requires forall c | c in raw :: !IsParen(c)
    ensures ExactName(Trim(raw)) == Ok(name) <==> IsExact(name) && Writes(Trim(raw), name)
  {
    if ExactName(Trim(raw)) == Ok(name) {
      var a, b := TrimSplits(raw);
      assert forall c | c in Trim(raw) :: c in raw;
      ReadIsWritten(Trim(raw), name);
      WrittenLast(Trim(raw), name);
    } else if IsExact(name) && Writes(Trim(raw), name) {
      WrittenIsRead(Trim(raw), name);
    }
  }

  /** Why an argument is refused, whichever way its name is written: a matcher first, then a glob, then nothing there. */
  lemma RefusedName(arg: string, name: string)
    requires arg == "=" + name || (arg == name && (name == [] || name[0] != '='))
    ensures name == [] ==> ExactName(arg) == Err(EmptyArgument)
    ensures name != [] && (name[0] == '~' || name[0] == '/' || name[0] == '#') ==>
      ExactName(arg) == Err(Matcher(name[0]))
    ensures name != [] && name[0] != '~' && name[0] != '/' && name[0] != '#' && (exists c | c in name :: IsGlob(c)) ==>
      ExactName(arg) == Err(GlobSyntax)
  {
    EqualsTaken(name);
  }

  /** However it is padded with white space, either way of writing a name is read back as that name. */
  lemma ExactNameReadBack(a: string, arg: string, b: string, name: string)
    requires AllSpace(a) && AllSpace(b) && IsExact(name) && Writes(arg, name) && IsTrimmed(arg)
    ensures ExactName(Trim(a + arg + b)) == Ok(name)
  {
    TrimIs(a, arg, b);
    WrittenIsRead(arg, name);
  }
}
