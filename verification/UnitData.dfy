/**
 Finding the `UNIT_DATA` array in a cargo timings report: the end of a JSON array (RFC 8259) is found by
 bracket depth, skipping brackets inside strings.
 */
module UnitData {
  import opened Basics

  // ----- the scanner, one character at a time -----

  datatype Mode = Outside | InString | Escaped

  datatype Scan = Scan(depth: int, mode: Mode)

  function Step(st: Scan, c: char): (st': Scan)
  {
    match st.mode
    case Escaped => st.(mode := InString)
    case InString => if c == '\\' then st.(mode := Escaped) else if c == '"' then st.(mode := Outside) else st
    case Outside =>
      if c == '"' then st.(mode := InString)
      else if c == '[' then st.(depth := st.depth + 1)
      else if c == ']' then st.(depth := st.depth - 1)
      else st
  }

  function Run(st: Scan, s: string): (st': Scan)
    decreases |s|
  {
    if s == [] then st else Run(Step(st, s[0]), s[1..])
  }

  lemma {:induction false} RunAppend(st: Scan, a: string, b: string)
    ensures Run(st, a + b) == Run(Run(st, a), b)
    decreases |a|
  {
    if a == [] {
      assert a + b == b;
    } else {
      assert (a + b)[1..] == a[1..] + b;
      RunAppend(Step(st, a[0]), a[1..], b);
    }
  }

  lemma RunPush(st: Scan, s: string, from: nat, i: nat)
    requires from <= i < |s|
    ensures Run(st, s[from..i + 1]) == Step(Run(st, s[from..i]), s[i])
  {
    assert s[from..i + 1] == s[from..i] + [s[i]];
    RunAppend(st, s[from..i], [s[i]]);
    assert [s[i]][1..] == [];
  }

  predicate Closes(st: Scan, c: char)
  {
    st.mode == Outside && c == ']' && st.depth == 1
  }

  /** The first bracket, outside strings, that brings the depth back to zero. */
  function FirstClose(st: Scan, s: string): (end: Option<nat>)
    ensures end.Some? ==> end.value < |s|
    decreases |s|
  {
    if s == [] then None
    else if Closes(st, s[0]) then Some(0)
    else
      var rest := FirstClose(Step(st, s[0]), s[1..]);
      if rest.Some? then Some(rest.value + 1) else None
  }

  const Start := Scan(0, Outside)

  lemma {:induction false} NotYet(st: Scan, s: string, i: nat)
    requires i <= |s| && forall k | 0 <= k < i :: !Closes(Run(st, s[..k]), s[k])
    ensures FirstClose(st, s) ==
      var rest := FirstClose(Run(st, s[..i]), s[i..]); if rest.Some? then Some(rest.value + i) else None
    decreases i
  {
    if i == 0 {
      assert s[0..] == s;
    } else {
      assert s[..0] == [] && !Closes(Run(st, s[..0]), s[0]);
      forall k | 0 <= k < i - 1 ensures !Closes(Run(Step(st, s[0]), s[1..][..k]), s[1..][k]) {
        assert s[..k + 1] == [s[0]] + s[1..][..k];
        assert !Closes(Run(st, s[..k + 1]), s[k + 1]);
      }
      NotYet(Step(st, s[0]), s[1..], i - 1);
      assert s[..i] == [s[0]] + s[1..][..i - 1] && s[1..][i - 1..] == s[i..];
    }
  }

  /** The first close of the whole text is the one the scan finds from `st` behind its first `seen` characters. */
  predicate Ahead(whole: Option<nat>, s: string, seen: nat, st: Scan)
    requires seen <= |s|
  {
    whole == Shifted(FirstClose(st, s[seen..]), seen)
  }

  function Shifted(at: Option<nat>, n: nat): Option<nat>
  {
    if at.Some? then Some(at.value + n) else None
  }

  lemma OneAhead(whole: Option<nat>, s: string, seen: nat, st: Scan)
    requires seen < |s| && Ahead(whole, s, seen, st)
    ensures if Closes(st, s[seen]) then whole == Some(seen) else Ahead(whole, s, seen + 1, Step(st, s[seen]))
  {
    var rest := s[seen..];
    assert rest[0] == s[seen] && rest[1..] == s[seen + 1..];
  }

  /** The loop of `readUnits`, which steps over the character behind a backslash. */
  method FindEnd(html: string, open: nat) returns (end: Option<nat>)
    requires open <= |html|
    ensures end == Shifted(FirstClose(Start, html[open..]), open)
  {
    var depth := 0;
    var inString := false;
    var i := open;
    ghost var s, seen, st := html[open..], 0, Start;
    ghost var whole := FirstClose(Start, s);
    assert s[0..] == s;
    while i < |html|
      invariant open <= i && seen <= |s| && (i <= |html| ==> seen == i - open) && (i > |html| ==> seen == |s|)
      invariant Ahead(whole, s, seen, st) && (i <= |html| ==> st == Scan(depth, if inString then InString else Outside))
      decreases |html| - i
    {
      var c := html[i];
      assert s[seen] == c;
      OneAhead(whole, s, seen, st);
      if inString {
        if c == '\\' {
          i := i + 1;
          if seen + 1 < |s| {
            st := Step(st, s[seen]);
            OneAhead(whole, s, seen + 1, st);
            seen := seen + 1;
          }
        } else if c == '"' {
          inString := false;
        }
      } else if c == '"' {
        inString := true;
      } else if c == '[' {
        depth := depth + 1;
      } else if c == ']' {
        depth := depth - 1;
        if depth == 0 {
          return Some(i);
        }
      }
      st := Step(st, s[seen]);
      i := i + 1;
      seen := seen + 1;
    }
    assert s[seen..] == [];
    return None;
  }

  // ----- JSON texts -----

  /** A character of a JSON string: itself, escaped, or as four hexadecimal digits. */
  datatype Unit = Plain(c: char) | Escape(c: char) | Unicode(hex: string)

  /** A JSON text with its white space. A number is any run of number characters. */
  datatype Value =
    | Scalar(text: string)
    | Str(units: seq<Unit>)
    | Arr(blank: string, items: Items)
    | Obj(blank: string, members: Members)

  datatype Items = NoItems | Item(before: string, value: Value, after: string, rest: Items)

  datatype Members =
    | NoMembers
    | Member(before: string, key: seq<Unit>, afterKey: string, beforeValue: string, value: Value,
             after: string, rest: Members)

  predicate IsUnit(u: Unit)
  {
    match u
    case Plain(c) => c >= ' ' && c != '"' && c != '\\'
    case Escape(c) => c in "\"\\/bfnrt"
    case Unicode(hex) => |hex| == 4 && forall c | c in hex :: '0' <= c <= '9' || 'a' <= c <= 'f' || 'A' <= c <= 'F'
  }

  predicate IsBlank(s: string)
  {
    forall c | c in s :: c in " \t\n\r"
  }

  predicate IsScalar(s: string)
  {
    s == "true" || s == "false" || s == "null" || (s != [] && forall c | c in s :: c in "+-.0123456789eE")
  }

  predicate IsString(units: seq<Unit>)
  {
    forall u | u in units :: IsUnit(u)
  }

  predicate IsJson(v: Value)
  {
    match v
    case Scalar(text) => IsScalar(text)
    case Str(units) => IsString(units)
    case Arr(blank, items) => IsBlank(blank) && AreItems(items)
    case Obj(blank, members) => IsBlank(blank) && AreMembers(members)
  }

  predicate AreItems(items: Items)
  {
    items.Item? ==>
      IsBlank(items.before) && IsJson(items.value) && IsBlank(items.after) && AreItems(items.rest)
  }

  predicate AreMembers(ms: Members)
  {
    ms.Member? ==>
      && IsBlank(ms.before) && IsString(ms.key) && IsBlank(ms.afterKey) && IsBlank(ms.beforeValue)
      && IsJson(ms.value) && IsBlank(ms.after) && AreMembers(ms.rest)
  }

  function UnitText(u: Unit): (text: string)
  {
    match u
    case Plain(c) => [c]
    case Escape(c) => ['\\', c]
    case Unicode(hex) => "\\u" + hex
  }

  function UnitsText(units: seq<Unit>): (text: string)
  {
    if units == [] then "" else UnitText(units[0]) + UnitsText(units[1..])
  }

  function StringText(units: seq<Unit>): (text: string)
  {
    "\"" + UnitsText(units) + "\""
  }

  function Text(v: Value): (text: string)
    decreases v, 1
  {
    match v
    case Scalar(text) => text
    case Str(units) => StringText(units)
    case Arr(blank, items) => "[" + Body(v) + "]"
    case Obj(blank, members) => "{" + (if members.NoMembers? then blank else MembersText(members)) + "}"
  }

  /** What an array holds between its brackets. */
  function Body(v: Value): (text: string)
    requires v.Arr?
    decreases v, 0
  {
    if v.items.NoItems? then v.blank else ItemsText(v.items)
  }

  function ItemsText(items: Items): (text: string)
    decreases items, 0
  {
    if items.NoItems? then ""
    else
      items.before + Text(items.value) + items.after
      + if items.rest.NoItems? then "" else "," + ItemsText(items.rest)
  }

  function MembersText(ms: Members): (text: string)
    decreases ms, 0
  {
    if ms.NoMembers? then ""
    else
      ms.before + StringText(ms.key) + ms.afterKey + ":" + ms.beforeValue + Text(ms.value) + ms.after
      + if ms.rest.NoMembers? then "" else "," + MembersText(ms.rest)
  }

  // ----- a JSON text is level: it ends at the depth it started at, and never goes below -----

  /** No prefix of `s` takes the depth below `floor`. */
  predicate Above(st: Scan, s: string, floor: int)
    decreases |s|
  {
    st.depth >= floor && (s == [] || Above(Step(st, s[0]), s[1..], floor))
  }

  lemma {:induction false} AboveAppend(st: Scan, a: string, b: string, floor: int)
    ensures Above(st, a + b, floor) <==> Above(st, a, floor) && Above(Run(st, a), b, floor)
    decreases |a|
  {
    if a == [] {
      assert a + b == b;
    } else {
      assert (a + b)[1..] == a[1..] + b;
      AboveAppend(Step(st, a[0]), a[1..], b, floor);
    }
  }

  lemma {:induction false} AboveMeans(st: Scan, s: string, floor: int, k: nat)
    requires Above(st, s, floor) && k <= |s|
    ensures Run(st, s[..k]).depth >= floor
  {
    assert s == s[..k] + s[k..];
    AboveAppend(st, s[..k], s[k..], floor);
  }

  predicate Level(s: string, d: int)
  {
    Run(Scan(d, Outside), s) == Scan(d, Outside) && Above(Scan(d, Outside), s, d)
  }

  lemma LevelAppend(a: string, b: string, d: int)
    requires Level(a, d) && Level(b, d)
    ensures Level(a + b, d)
  {
    RunAppend(Scan(d, Outside), a, b);
    AboveAppend(Scan(d, Outside), a, b, d);
  }

  lemma {:induction false} FlatLevel(s: string, d: int)
    requires forall c | c in s :: c != '"' && c != '[' && c != ']'
    ensures Level(s, d)
  {
    if s != [] {
      assert s[0] in s && forall c | c in s[1..] :: c in s;
      FlatLevel(s[1..], d);
    }
  }

  lemma {:induction false} HexInside(s: string, d: int)
    requires forall c | c in s :: c != '"' && c != '\\'
    ensures Run(Scan(d, InString), s) == Scan(d, InString) && Above(Scan(d, InString), s, d)
  {
    if s != [] {
      assert s[0] in s && forall c | c in s[1..] :: c in s;
      HexInside(s[1..], d);
    }
  }

  lemma UnitInside(u: Unit, d: int)
    requires IsUnit(u)
    ensures Run(Scan(d, InString), UnitText(u)) == Scan(d, InString) && Above(Scan(d, InString), UnitText(u), d)
  {
    match u
    case Plain(c) => HexInside([c], d);
    case Escape(c) =>
      assert ['\\', c] == ['\\'] + [c];
      RunAppend(Scan(d, InString), ['\\'], [c]);
      AboveAppend(Scan(d, InString), ['\\'], [c], d);
    case Unicode(hex) =>
      assert ("\\u" + hex)[1..] == "u" + hex && ("u" + hex)[1..] == hex;
      HexInside(hex, d);
  }

  lemma {:induction false} UnitsInside(units: seq<Unit>, d: int)
    requires IsString(units)
    ensures var s := UnitsText(units);
      Run(Scan(d, InString), s) == Scan(d, InString) && Above(Scan(d, InString), s, d)
  {
    if units != [] {
      UnitInside(units[0], d);
      UnitsInside(units[1..], d);
      RunAppend(Scan(d, InString), UnitText(units[0]), UnitsText(units[1..]));
      AboveAppend(Scan(d, InString), UnitText(units[0]), UnitsText(units[1..]), d);
    }
  }

  lemma StringLevel(units: seq<Unit>, d: int)
    requires IsString(units)
    ensures Level(StringText(units), d)
  {
    var s := UnitsText(units);
    UnitsInside(units, d);
    RunAppend(Scan(d, InString), s, "\"");
    AboveAppend(Scan(d, InString), s, "\"", d);
    assert "\""[1..] == "";
    assert StringText(units)[1..] == s + "\"";
  }

  /** Between its brackets an array's text is level one deeper. */
  lemma BracketLevel(body: string, d: int)
    requires Level(body, d + 1)
    ensures Level("[" + body + "]", d)
  {
    var st := Scan(d + 1, Outside);
    RunAppend(st, body, "]");
    AboveLower(st, body, d + 1, d);
    AboveAppend(st, body, "]", d);
    assert "]"[1..] == "" && Step(st, ']') == Scan(d, Outside);
    assert ("[" + body + "]")[1..] == body + "]";
  }

  lemma {:induction false} AboveLower(st: Scan, s: string, a: int, b: int)
    requires Above(st, s, a) && b <= a
    ensures Above(st, s, b)
    decreases |s|
  {
    if s != [] {
      AboveLower(Step(st, s[0]), s[1..], a, b);
    }
  }

  lemma {:induction false} ValueLevel(v: Value, d: int)
    requires IsJson(v)
    ensures Level(Text(v), d)
    ensures v.Arr? ==> Level(Body(v), d + 1)
    decreases v, 1
  {
    match v
    case Scalar(text) => FlatLevel(text, d);
    case Str(units) => StringLevel(units, d);
    case Arr(blank, items) =>
      FlatLevel(blank, d + 1);
      ItemsLevel(items, d + 1);
      BracketLevel(Body(v), d);
    case Obj(blank, members) =>
      FlatLevel(blank, d);
      MembersLevel(members, d);
      var inside := if members.NoMembers? then blank else MembersText(members);
      FlatLevel("{", d);
      FlatLevel("}", d);
      LevelAppend("{", inside, d);
      LevelAppend("{" + inside, "}", d);
  }

  lemma {:induction false} ItemsLevel(items: Items, d: int)
    requires AreItems(items)
    ensures Level(ItemsText(items), d)
    decreases items, 0
  {
    if items.Item? {
      var one := items.before + Text(items.value);
      FlatLevel(items.before, d);
      FlatLevel(items.after, d);
      ValueLevel(items.value, d);
      LevelAppend(items.before, Text(items.value), d);
      LevelAppend(one, items.after, d);
      RestLevel(one + items.after, items.rest.NoItems?, ItemsText(items.rest), d) by {
        ItemsLevel(items.rest, d);
      }
    }
  }

  lemma RestLevel(first: string, last: bool, rest: string, d: int)
    requires Level(first, d) && Level(rest, d)
    ensures Level(first + if last then "" else "," + rest, d)
  {
    FlatLevel("", d);
    FlatLevel(",", d);
    LevelAppend(",", rest, d);
    LevelAppend(first, if last then "" else "," + rest, d);
  }

  lemma {:induction false} MembersLevel(ms: Members, d: int)
    requires AreMembers(ms)
    ensures Level(MembersText(ms), d)
    decreases ms, 1
  {
    if ms.Member? {
      MemberLevel(ms, d);
      MembersLevel(ms.rest, d);
      RestLevel(ms.before + StringText(ms.key) + ms.afterKey + ":" + ms.beforeValue + Text(ms.value) + ms.after,
                ms.rest.NoMembers?, MembersText(ms.rest), d);
    }
  }

  lemma {:induction false} MemberLevel(ms: Members, d: int)
    requires ms.Member? && AreMembers(ms)
    ensures Level(ms.before + StringText(ms.key) + ms.afterKey + ":" + ms.beforeValue + Text(ms.value) + ms.after, d)
    decreases ms, 0
  {
    var a := ms.before + StringText(ms.key);
    FlatLevel(ms.before, d);
    StringLevel(ms.key, d);
    LevelAppend(ms.before, StringText(ms.key), d);
    FlatLevel(ms.afterKey + ":" + ms.beforeValue, d);
    LevelAppend(a, ms.afterKey + ":" + ms.beforeValue, d);
    ValueLevel(ms.value, d);
    LevelAppend(a + (ms.afterKey + ":" + ms.beforeValue), Text(ms.value), d);
    FlatLevel(ms.after, d);
    LevelAppend(a + (ms.afterKey + ":" + ms.beforeValue) + Text(ms.value), ms.after, d);
    assert a + (ms.afterKey + ":" + ms.beforeValue) == a + ms.afterKey + ":" + ms.beforeValue;
  }

  // ----- the scanner returns exactly the array -----

  /** Inside an array's text the depth stays above zero up to its own closing bracket. */
  lemma OpenUntilClose(v: Value, rest: string, k: nat)
    requires v.Arr? && IsJson(v) && k < |Text(v)|
    ensures var s := Text(v) + rest;
      && (k + 1 < |Text(v)| ==> !Closes(Run(Start, s[..k]), s[k]))
      && (k + 1 == |Text(v)| ==> Closes(Run(Start, s[..k]), s[k]))
  {
    ValueLevel(v, 0);
    assert Text(v) == "[" + Body(v) + "]";
    BracketsClose(Body(v), rest, k);
  }

  lemma BracketsClose(body: string, rest: string, k: nat)
    requires Level(body, 1) && k < |body| + 2
    ensures var s := "[" + body + "]" + rest;
      && (k < |body| + 1 ==> !Closes(Run(Start, s[..k]), s[k]))
      && (k == |body| + 1 ==> Closes(Run(Start, s[..k]), s[k]))
  {
    var s := "[" + body + "]" + rest;
    if k == 0 {
      assert s[0] == '[';
    } else {
      assert s[..k] == "[" + body[..k - 1];
      RunAppend(Start, "[", body[..k - 1]);
      assert "["[1..] == "";
      assert Run(Start, "[") == Scan(1, Outside);
      AboveMeans(Scan(1, Outside), body, 1, k - 1);
      if k <= |body| {
        AboveMeans(Scan(1, Outside), body, 1, k);
        RunPush(Scan(1, Outside), body, 0, k - 1);
        assert body[0..k] == body[..k] && body[0..k - 1] == body[..k - 1] && s[k] == body[k - 1];
      } else {
        assert body[..k - 1] == body;
      }
    }
  }

  /** For every JSON array followed by any text, the scan ends at the array's own closing bracket. */
  lemma ScanFindsArrayEnd(v: Value, rest: string)
    requires v.Arr? && IsJson(v)
    ensures FirstClose(Start, Text(v) + rest) == Some(|Text(v)| - 1)
  {
    var s, n := Text(v) + rest, |Text(v)| - 1;
    forall k | 0 <= k < n ensures !Closes(Run(Start, s[..k]), s[k]) { OpenUntilClose(v, rest, k); }
    OpenUntilClose(v, rest, n);
    NotYet(Start, s, n);
    assert s[n..][0] == s[n];
  }

  /** A report cut off anywhere inside the array has no end to find. */
  lemma TruncatedArrayHasNoEnd(v: Value, n: nat)
    requires v.Arr? && IsJson(v) && n < |Text(v)|
    ensures FirstClose(Start, Text(v)[..n]) == None
  {
    var s := Text(v)[..n];
    forall k | 0 <= k < n ensures !Closes(Run(Start, s[..k]), s[k]) {
      OpenUntilClose(v, "", k);
      assert s[..k] == (Text(v) + "")[..k] && s[k] == (Text(v) + "")[k];
    }
    NotYet(Start, s, n);
  }

  // ----- in a report -----

  datatype ReadError = NoArray | Unterminated

  /** The first place, from `from` on, where `sought` stands. */
  function IndexOf(s: string, sought: string, from: nat): (at: Option<nat>)
    requires from <= |s|
    ensures at.Some? ==> from <= at.value <= |s|
    decreases |s| - from
  {
    if sought <= s[from..] then Some(from) else if from == |s| then None else IndexOf(s, sought, from + 1)
  }

  /** The text handed to the JSON parser. */
  function ArrayText(html: string): (r: Result<string, ReadError>)
  {
    var start := IndexOf(html, "UNIT_DATA", 0);
    if start.None? then Err(NoArray)
    else
      var open := IndexOf(html, "[", start.value);
      if open.None? then Err(NoArray)
      else
        var end := FirstClose(Start, html[open.value..]);
        if end.None? then Err(Unterminated) else Ok(html[open.value..open.value + end.value + 1])
  }

  /** `readUnits`, up to parsing the array. */
  method ReadUnits(html: string) returns (r: Result<string, ReadError>)
    ensures r == ArrayText(html)
  {
    var start := IndexOf(html, "UNIT_DATA", 0);
    var open := if start.None? then None else IndexOf(html, "[", start.value);
    if open.None? {
      return Err(NoArray);
    }
    var end := FindEnd(html, open.value);
    if end.None? {
      return Err(Unterminated);
    }
    return Ok(html[open.value..end.value + 1]);
  }

  lemma {:induction false} FirstBracket(s: string, from: nat, k: nat)
    requires from <= k < |s| && s[k] == '[' && forall i | from <= i < k :: s[i] != '['
    ensures IndexOf(s, "[", from) == Some(k)
    decreases k - from
  {
    assert s[from..][0] == s[from];
    if from < k {
      assert "["[0] == '[';
      FirstBracket(s, from + 1, k);
    }
  }

  /**
   A report whose first `UNIT_DATA` is followed, with no other bracket between, by a JSON array reads as
   exactly that array's text, whatever comes after; cut off inside the array it is refused.
   */
  lemma ReportReadsArray(before: string, between: string, v: Value, rest: string, n: nat)
    requires v.Arr? && IsJson(v) && n < |Text(v)| && '[' !in between
    requires var head := before + "UNIT_DATA" + between;
      && IndexOf(head + Text(v) + rest, "UNIT_DATA", 0) == Some(|before|)
      && IndexOf(head + Text(v)[..n], "UNIT_DATA", 0) == Some(|before|)
    ensures var head := before + "UNIT_DATA" + between;
      && ArrayText(head + Text(v) + rest) == Ok(Text(v))
      && ArrayText(head + Text(v)[..n]) == Err(if n == 0 then NoArray else Unterminated)
  {
    var head := before + "UNIT_DATA" + between;
    var s, cut := head + Text(v) + rest, head + Text(v)[..n];
    assert Text(v)[0] == '[';
    HeadHasNoBracket(before, between);
    FirstBracket(s, |before|, |head|);
    assert s[|head|..] == Text(v) + rest;
    ScanFindsArrayEnd(v, rest);
    assert s[|head|..|head| + |Text(v)|] == Text(v);
    if n == 0 {
      NoBracket(cut, |before|);
    } else {
      FirstBracket(cut, |before|, |head|);
      assert cut[|head|..] == Text(v)[..n];
      TruncatedArrayHasNoEnd(v, n);
    }
  }

  lemma HeadHasNoBracket(before: string, between: string)
    requires '[' !in between
    ensures var head := before + "UNIT_DATA" + between; forall i | |before| <= i < |head| :: head[i] != '['
  {
    var head := before + "UNIT_DATA" + between;
    forall i | |before| <= i < |head| ensures head[i] != '[' {
      if i >= |before| + 9 {
        assert head[i] == between[i - |before| - 9];
      } else {
        assert head[i] == "UNIT_DATA"[i - |before|];
      }
    }
  }

  lemma {:induction false} NoBracket(s: string, from: nat)
    requires from <= |s| && forall i | from <= i < |s| :: s[i] != '['
    ensures IndexOf(s, "[", from) == None
    decreases |s| - from
  {
    if from < |s| {
      assert s[from..][0] == s[from] && "["[0] == '[';
      NoBracket(s, from + 1);
    }
  }
}
