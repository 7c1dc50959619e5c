/** A comma-separated list in one string: joined when written, split and trimmed when read. */
module CommaList {
  import opened Basics

  /** Unicode white space, as `str::trim` reads it. */
  predicate IsSpace(c: char)
  {
    || '\U{0009}' <= c <= '\U{000D}' || c == ' ' || c == '\U{0085}' || c == '\U{00A0}' || c == '\U{1680}'
    || '\U{2000}' <= c <= '\U{200A}' || c == '\U{2028}' || c == '\U{2029}' || c == '\U{202F}'
    || c == '\U{205F}' || c == '\U{3000}'
  }

  function TrimStart(s: string): (t: string)
  {
    if s != [] && IsSpace(s[0]) then TrimStart(s[1..]) else s
  }

  function TrimEnd(s: string): (t: string)
  {
    if s != [] && IsSpace(s[|s| - 1]) then TrimEnd(s[..|s| - 1]) else s
  }

  function Trim(s: string): (t: string)
  {
    TrimEnd(TrimStart(s))
  }

  lemma TrimmedEnds(s: string)
    ensures var t := Trim(s);
      && (t != [] ==> !IsSpace(t[0]) && !IsSpace(t[|t| - 1])) && forall c | c in t :: c in s
  {
    StartTrimmed(s);
    EndTrimmed(TrimStart(s));
  }

  lemma {:induction false} StartTrimmed(s: string)
    ensures var t := TrimStart(s); (t != [] ==> !IsSpace(t[0])) && forall c | c in t :: c in s
  {
    if s != [] && IsSpace(s[0]) {
      StartTrimmed(s[1..]);
    }
  }

  lemma {:induction false} EndTrimmed(s: string)
    ensures var t := TrimEnd(s); t <= s && (t != [] ==> !IsSpace(t[|t| - 1]))
  {
    if s != [] && IsSpace(s[|s| - 1]) {
      EndTrimmed(s[..|s| - 1]);
    }
  }

  lemma TrimKeeps(s: string)
    requires s != [] ==> !IsSpace(s[0]) && !IsSpace(s[|s| - 1])
    ensures Trim(s) == s
  {
  }

  function Join(items: seq<string>): (text: string)
  {
    if items == [] then "" else if |items| == 1 then items[0] else items[0] + "," + Join(items[1..])
  }

  function Split(text: string): (parts: seq<string>)
    ensures parts != []
  {
    if text == [] then [""]
    else if text[0] == ',' then [""] + Split(text[1..])
    else
      var rest := Split(text[1..]);
      [[text[0]] + rest[0]] + rest[1..]
  }

  /** The trimmed parts that are not empty. */
  function Trimmed(parts: seq<string>): (items: seq<string>)
  {
    if parts == [] then [] else Kept(parts[0]) + Trimmed(parts[1..])
  }

  function Kept(part: string): (items: seq<string>)
  {
    if Trim(part) == "" then [] else [Trim(part)]
  }

  function Pieces(text: string): (items: seq<string>)
  {
    Trimmed(Split(text))
  }

  /** A name that a list gives back as written. */
  predicate Clean(item: string)
  {
    item != "" && ',' !in item && !IsSpace(item[0]) && !IsSpace(item[|item| - 1])
  }

  lemma {:induction false} SplitJoint(a: string, b: string)
    ensures Split(a + "," + b) == Split(a) + Split(b)
  {
    if a == [] {
      assert a + "," + b == "," + b && ("," + b)[1..] == b;
    } else {
      assert (a + "," + b)[1..] == a[1..] + "," + b && (a + "," + b)[0] == a[0];
      SplitJoint(a[1..], b);
      SplitHead(a + "," + b, Split(a[1..]), Split(b));
    }
  }

  lemma SplitHead(text: string, front: seq<string>, back: seq<string>)
    requires text != [] && front != [] && Split(text[1..]) == front + back
    ensures Split(text) == (if text[0] == ',' then [""] + front else [[text[0]] + front[0]] + front[1..]) + back
  {
  }

  lemma {:induction false} SplitWhole(a: string)
    requires ',' !in a
    ensures Split(a) == [a]
  {
    if a != [] {
      assert a[0] in a && ',' !in a[1..];
      SplitWhole(a[1..]);
      assert [a[0]] + a[1..] == a;
    }
  }

  lemma {:induction false} SplitNoComma(text: string)
    ensures forall p | p in Split(text) :: ',' !in p
  {
    if text != [] {
      SplitNoComma(text[1..]);
      var rest := Split(text[1..]);
      assert rest[0] in rest && forall p | p in rest[1..] :: p in rest;
    }
  }

  lemma {:induction false} TrimmedAppend(a: seq<string>, b: seq<string>)
    ensures Trimmed(a + b) == Trimmed(a) + Trimmed(b)
  {
    if a == [] {
      assert a + b == b;
    } else {
      assert (a + b)[1..] == a[1..] + b && (a + b)[0] == a[0];
      TrimmedAppend(a[1..], b);
      Associate(Kept(a[0]), Trimmed(a[1..]), Trimmed(b));
    }
  }

  lemma {:induction false} TrimmedClean(parts: seq<string>)
    requires forall p | p in parts :: ',' !in p
    ensures forall item | item in Trimmed(parts) :: Clean(item)
  {
    if parts != [] {
      TrimmedEnds(parts[0]);
      assert parts[0] in parts && forall p | p in parts[1..] :: p in parts;
      TrimmedClean(parts[1..]);
    }
  }

  /** Whatever a list is read from, what is read is clean. */
  lemma PiecesClean(text: string)
    ensures forall item | item in Pieces(text) :: Clean(item)
  {
    SplitNoComma(text);
    TrimmedClean(Split(text));
  }

  lemma PieceOfClean(item: string)
    requires Clean(item)
    ensures Pieces(item) == [item]
  {
    SplitWhole(item);
    TrimKeeps(item);
    assert [item][1..] == [] && Trimmed([item]) == [item] + Trimmed([]);
  }

  function AllPieces(items: seq<string>): (pieces: seq<string>)
  {
    if items == [] then [] else Pieces(items[0]) + AllPieces(items[1..])
  }

  /** Splitting a joined list splits each item on its own. */
  lemma {:induction false} PiecesOfJoin(items: seq<string>)
    ensures Pieces(Join(items)) == AllPieces(items)
  {
    if items == [] {
      assert [""][1..] == [];
    } else if |items| == 1 {
      assert AllPieces(items[1..]) == [];
    } else {
      PiecesOfJoin(items[1..]);
      SplitJoint(items[0], Join(items[1..]));
      TrimmedAppend(Split(items[0]), Split(Join(items[1..])));
    }
  }

  /** A clean name before a comma is a piece of its own, and the whole is not clean. */
  lemma PieceBeforeComma(x: string, y: string)
    requires Clean(x)
    ensures x in Pieces(x + "," + y) && !Clean(x + "," + y)
  {
    SplitJoint(x, y);
    TrimmedAppend(Split(x), Split(y));
    PieceOfClean(x);
    assert (Trimmed(Split(x)) + Trimmed(Split(y)))[0] == x;
    assert (x + "," + y)[|x|] == ',';
  }

  /** Splitting undoes joining for clean names. */
  lemma SplitUndoesJoin(items: seq<string>)
    requires forall i | i in items :: Clean(i)
    ensures Pieces(Join(items)) == items && AllPieces(items) == items
  {
    PiecesOfJoin(items);
    PiecesOfClean(items);
  }

  lemma {:induction false} PiecesOfClean(items: seq<string>)
    requires forall i | i in items :: Clean(i)
    ensures AllPieces(items) == items
  {
    if items != [] {
      assert items[0] in items && forall i | i in items[1..] :: i in items;
      PieceOfClean(items[0]);
      PiecesOfClean(items[1..]);
      assert [items[0]] + items[1..] == items;
    }
  }

  /** A name is in what is read back exactly when it is clean, whatever stands beside it. */
  lemma ReadBackIffClean(items: seq<string>, item: string)
    requires item in items
    ensures item in Pieces(Join(items)) <==> Clean(item)
  {
    PiecesOfJoin(items);
    PiecesClean(Join(items));
    if Clean(item) {
      ListedInAll(items, item);
    }
  }

  lemma {:induction false} ListedInAll(items: seq<string>, item: string)
    requires item in items && Clean(item)
    ensures item in AllPieces(items)
  {
    if items[0] == item {
      PieceOfClean(item);
      assert Pieces(item)[0] == item;
    } else {
      ListedInAll(items[1..], item);
    }
  }
}
