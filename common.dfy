/** Small helpers shared by the modules of this model. */
module Common {

  /** A value that may be absent; stands for a nullable pointer or a missing hash entry. */
  datatype Option<+T> = None | Some(value: T) {
    function GetOr(default: T): (r: T)
      ensures Some? ==> r == value
      ensures None? ==> r == default
    {
      match this
      case Some(v) => v
      case None => default
    }
  }

  /** An 8-bit byte of a file read into memory. */
  newtype byte = x: int | 0 <= x < 0x100

  /** A UTF-16 code unit (QChar / UChar). */
  newtype u16 = x: int | 0 <= x < 0x1_0000

  /** QList::removeOne: drops the first element equal to x, if any. */
  function RemoveFirst<T(==)>(s: seq<T>, x: T): (r: seq<T>)
    ensures x !in s ==> r == s
    ensures x in s ==> |r| == |s| - 1
  {
    if s == [] then []
    else
      assert s == [s[0]] + s[1..];
      if s[0] == x then s[1..] else [s[0]] + RemoveFirst(s[1..], x)
  }

  /** removeOne takes exactly one occurrence of x away, when there is one. */
  lemma {:induction false} RemoveFirstMultiset<T>(s: seq<T>, x: T)
    ensures multiset(RemoveFirst(s, x)) == multiset(s) - multiset{x}
  {
    if s != [] {
      assert s == [s[0]] + s[1..];
      if s[0] != x {
        RemoveFirstMultiset(s[1..], x);
      }
    }
  }

  /** removeOne of an element just appended to a list that lacked it gives the list back. */
  lemma {:induction false} RemoveFirstOfAppended<T>(s: seq<T>, x: T)
    requires x !in s
    ensures RemoveFirst(s + [x], x) == s
  {
    if s != [] {
      assert (s + [x])[1..] == s[1..] + [x];
      RemoveFirstOfAppended(s[1..], x);
      assert [s[0]] + s[1..] == s;
    }
  }

  /** Removing a key just added to a map that lacked it gives the map back. */
  lemma MapAddThenRemove<K, V>(m: map<K, V>, k: K, v: V)
    requires k !in m
    ensures m[k := v] - {k} == m
  {
    assert (m[k := v] - {k}).Keys == m.Keys;
  }

  /** No element occurs twice. */
  ghost predicate Distinct<T>(s: seq<T>) {
    forall y | y in s :: multiset(s)[y] <= 1
  }

  /** The two parts of a list without duplicates have no element in common. */
  lemma DistinctParts<T>(a: seq<T>, b: seq<T>)
    requires Distinct(a + b)
    ensures forall y :: y in a ==> y !in b
  {
    forall y | y in a ensures y !in b {
      assert y in a + b;
      assert multiset(a + b)[y] == multiset(a)[y] + multiset(b)[y];
      assert multiset(a)[y] >= 1;
      assert multiset(b)[y] == 0;
    }
  }

  /** A list extended by one element has no duplicates exactly when the list has none and lacks the element. */
  lemma DistinctAppend<T>(s: seq<T>, x: T)
    ensures Distinct(s + [x]) <==> Distinct(s) && x !in s
  {
    var t := s + [x];
    assert multiset(t) == multiset(s) + multiset{x};
    assert forall y :: y in t <==> y in s || y == x;
    assert x in s ==> multiset(t)[x] >= 2 by {
      if x in s {
        assert x in multiset(s);
      }
    }
  }

  /** QList::removeOne keeps the other elements in order: it cuts out the first occurrence, at k. */
  lemma {:induction false} RemoveFirstCutsFirstOccurrence<T>(s: seq<T>, x: T, k: nat)
    requires k < |s| && s[k] == x && x !in s[..k]
    ensures RemoveFirst(s, x) == s[..k] + s[k + 1..]
  {
    if k == 0 {
      assert s[..0] + s[1..] == s[1..];
    } else {
      var tail := s[1..];
      assert s[0] != x by {
        assert s[0] == s[..k][0];
      }
      assert s[..k] == [s[0]] + tail[..k - 1];
      RemoveFirstCutsFirstOccurrence(tail, x, k - 1);
      assert s[k + 1..] == tail[k..];
    }
  }

  /** On a list without duplicates, removeOne removes the element entirely, and the rest stays duplicate-free. */
  lemma RemoveFirstOfDistinct<T>(s: seq<T>, x: T)
    requires Distinct(s)
    ensures Distinct(RemoveFirst(s, x))
    ensures forall y :: y in RemoveFirst(s, x) ==> y in s && y != x
    ensures forall y :: y in s && y != x ==> y in RemoveFirst(s, x)
  {
    var r := RemoveFirst(s, x);
    RemoveFirstMultiset(s, x);
    forall y ensures y in r <==> y in s && y != x {
      assert y in r <==> y in multiset(r);
      assert y in s <==> y in multiset(s);
    }
  }

  // ---------------------------------------------------------------- decimal text

  predicate IsDigit(c: char) {
    '0' <= c <= '9'
  }

  predicate AllDigits(s: string) {
    forall i :: 0 <= i < |s| ==> IsDigit(s[i])
  }

  /** The value of a string of decimal digits, most significant first. */
  function DigitsValue(ds: string): nat
    requires AllDigits(ds)
  {
    if ds == [] then 0 else DigitsValue(ds[..|ds| - 1]) * 10 + (ds[|ds| - 1] as int - '0' as int)
  }

  /** The decimal digits of a natural number, without leading zeros. */
  function NatText(n: nat): (r: string)
    ensures |r| >= 1 && AllDigits(r) && DigitsValue(r) == n
    ensures n >= 10 ==> r[0] != '0'
    decreases n
  {
    var last := [('0' as int + n % 10) as char];
    if n < 10 then last
    else
      var prefix := NatText(n / 10);
      assert (prefix + last)[..|prefix + last| - 1] == prefix;
      prefix + last
  }
}
