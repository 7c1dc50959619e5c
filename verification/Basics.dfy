/** Types and facts shared by the models. */
module Basics {

  datatype Option<+T> = None | Some(value: T)

  datatype Result<+T, +E> = Ok(value: T) | Err(error: E)
  {
    predicate IsFailure() { Err? }
    function PropagateFailure<U>(): Result<U, E>
      requires Err?
    {
      Err(error)
    }
    function Extract(): T
      requires Ok?
    {
      value
    }
  }

  /** The concatenation of the parts, in order. */
  function Flatten<T>(parts: seq<seq<T>>): (whole: seq<T>)
  {
    if parts == [] then [] else parts[0] + Flatten(parts[1..])
  }

  lemma {:induction false} FlattenAppend<T>(a: seq<seq<T>>, b: seq<seq<T>>)
    ensures Flatten(a + b) == Flatten(a) + Flatten(b)
  {
    if a == [] {
      assert a + b == b;
    } else {
      assert (a + b)[1..] == a[1..] + b;
      FlattenAppend(a[1..], b);
    }
  }

  lemma FlattenPush<T>(parts: seq<seq<T>>, last: seq<T>)
    ensures Flatten(parts + [last]) == Flatten(parts) + last
  {
    FlattenAppend(parts, [last]);
    assert Flatten([last]) == last;
  }

  /** The elements of `s` that satisfy `p`, in order. */
  function Keep<T>(p: T -> bool, s: seq<T>): (kept: seq<T>)
    ensures forall x | x in kept :: x in s && p(x)
    ensures forall x | x in s :: p(x) ==> x in kept
  {
    if s == [] then []
    else (if p(s[0]) then [s[0]] else []) + Keep(p, s[1..])
  }

  lemma {:induction false} KeepNone<T>(p: T -> bool, s: seq<T>)
    requires forall x | x in s :: !p(x)
    ensures Keep(p, s) == []
  {
    if s != [] {
      KeepNone(p, s[1..]);
    }
  }

  lemma {:induction false} KeepAll<T>(p: T -> bool, s: seq<T>)
    requires forall x | x in s :: p(x)
    ensures Keep(p, s) == s
  {
    if s != [] {
      KeepAll(p, s[1..]);
      assert s == [s[0]] + s[1..];
    }
  }

  /** Filtering with `p` after a weaker `q` changes nothing. */
  lemma {:induction false} KeepThrough<T>(p: T -> bool, q: T -> bool, s: seq<T>)
    requires forall x | x in s :: p(x) ==> q(x)
    ensures Keep(p, s) == Keep(p, Keep(q, s))
  {
    if s != [] {
      KeepThrough(p, q, s[1..]);
      KeepAppend(p, if q(s[0]) then [s[0]] else [], Keep(q, s[1..]));
      assert [s[0]][1..] == [];
    }
  }

  lemma {:induction false} KeepAppend<T>(p: T -> bool, a: seq<T>, b: seq<T>)
    ensures Keep(p, a + b) == Keep(p, a) + Keep(p, b)
  {
    if a == [] {
      assert a + b == b;
    } else {
      assert (a + b)[1..] == a[1..] + b;
      KeepAppend(p, a[1..], b);
    }
  }

  /** No element occurs twice. */
  predicate Distinct<T(==)>(s: seq<T>)
  {
    s == [] || (s[0] !in s[1..] && Distinct(s[1..]))
  }

  lemma {:induction false} DistinctSplit<T>(a: seq<T>, b: seq<T>)
    requires Distinct(a + b)
    ensures Distinct(b) && forall x | x in a :: x !in b
  {
    if a == [] {
      assert a + b == b;
    } else {
      assert (a + b)[1..] == a[1..] + b && (a + b)[0] == a[0];
      DistinctSplit(a[1..], b);
      assert a[0] !in a[1..] + b;
    }
  }

  lemma {:induction false} InFlatten<T>(parts: seq<seq<T>>, i: nat, x: T)
    requires i < |parts| && x in parts[i]
    ensures x in Flatten(parts)
  {
    if i > 0 {
      InFlatten(parts[1..], i - 1, x);
    }
  }

  /** Where the parts together hold no element twice, an element is in one part only. */
  lemma OnePartOnly<T>(parts: seq<seq<T>>, x: T, i: nat, j: nat)
    requires Distinct(Flatten(parts)) && i < j < |parts|
    ensures !(x in parts[i] && x in parts[j])
  {
    if x in parts[i] && x in parts[j] {
      assert parts == parts[..j] + parts[j..];
      FlattenAppend(parts[..j], parts[j..]);
      InFlatten(parts[..j], i, x);
      InFlatten(parts[j..], 0, x);
      DistinctSplit(Flatten(parts[..j]), Flatten(parts[j..]));
    }
  }

  lemma {:induction false} FlattenNested<T>(plans: seq<seq<seq<T>>>, parts: seq<seq<T>>)
    requires |plans| == |parts| && forall i | 0 <= i < |plans| :: Flatten(plans[i]) == parts[i]
    ensures Flatten(Flatten(plans)) == Flatten(parts)
  {
    if plans != [] {
      FlattenNested(plans[1..], parts[1..]);
      FlattenAppend(plans[0], Flatten(plans[1..]));
    }
  }

  /** A decimal digit. */
  function Digit(d: nat): (c: char)
    requires d < 10
  {
    "0123456789"[d]
  }

  /** `n` in decimal, without leading zeros. */
  function Decimal(n: nat): (text: string)
    ensures text != []
  {
    if n < 10 then [Digit(n)] else Decimal(n / 10) + [Digit(n % 10)]
  }

  /** Different numbers are written differently. */
  lemma {:induction false} DecimalInjective(a: nat, b: nat)
    requires Decimal(a) == Decimal(b)
    ensures a == b
  {
    var ta, tb := Decimal(a), Decimal(b);
    assert ta[|ta| - 1] == Digit(a % 10) && tb[|tb| - 1] == Digit(b % 10);
    if a >= 10 && b >= 10 {
      assert Decimal(a / 10) == ta[..|ta| - 1] == tb[..|tb| - 1] == Decimal(b / 10);
      DecimalInjective(a / 10, b / 10);
    }
  }

  lemma Associate<T>(a: seq<T>, b: seq<T>, c: seq<T>)
    ensures a + b + c == a + (b + c)
  {
  }
}
