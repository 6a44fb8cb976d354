/** Small shared vocabulary: optional values, error results, and the list and
    dictionary primitives of the host language that the registries rely on. */
module Basics {

  datatype Option<+T> = None | Some(value: T)

  datatype Result<+T> = Ok(value: T) | Err(error: string)

  /** `list.remove`: drops the first occurrence of `x`, if there is one. */
  function WithoutFirst<T(==)>(s: seq<T>, x: T): seq<T> {
    if s == [] then []
    else if s[0] == x then s[1..]
    else [s[0]] + WithoutFirst(s[1..], x)
  }

  lemma WithoutFirstAbsent<T>(s: seq<T>, x: T)
    ensures x !in s ==> WithoutFirst(s, x) == s
  {
  }

  lemma {:induction false} WithoutFirstAppend<T>(s: seq<T>, x: T, t: seq<T>)
    requires x in s
    ensures WithoutFirst(s + t, x) == WithoutFirst(s, x) + t
  {
    assert (s + t)[1..] == s[1..] + t;
    if s[0] != x {
      WithoutFirstAppend(s[1..], x, t);
    }
  }

  /** `list.count`: how often `x` occurs. */
  function Count<T(==)>(s: seq<T>, x: T): (n: nat)
    ensures n > 0 <==> x in s
  {
    if s == [] then 0 else (if s[0] == x then 1 else 0) + Count(s[1..], x)
  }

  lemma {:induction false} CountAppend<T>(s: seq<T>, t: seq<T>, x: T)
    ensures Count(s + t, x) == Count(s, x) + Count(t, x)
  {
    if s == [] {
      assert s + t == t;
    } else {
      assert (s + t)[1..] == s[1..] + t;
      CountAppend(s[1..], t, x);
    }
  }

  lemma {:induction false} CountWithoutFirst<T>(s: seq<T>, x: T, y: T)
    ensures Count(WithoutFirst(s, x), y) == Count(s, y) - (if x == y && x in s then 1 else 0)
  {
    if s != [] && s[0] != x {
      CountWithoutFirst(s[1..], x, y);
      assert WithoutFirst(s, x)[1..] == WithoutFirst(s[1..], x);
    }
  }

  lemma {:induction false} CountIsMultiplicity<T>(s: seq<T>, x: T)
    ensures Count(s, x) == multiset(s)[x]
  {
    if s != [] {
      assert s == [s[0]] + s[1..];
      CountIsMultiplicity(s[1..], x);
    }
  }

  /** A list comprehension with a filter and no mapping. */
  function Filter<T(!new)>(p: T -> bool, s: seq<T>): (r: seq<T>)
    ensures forall x :: x in r <==> x in s && p(x)
    ensures |r| <= |s|
  {
    if s == [] then []
    else if p(s[0]) then [s[0]] + Filter(p, s[1..])
    else Filter(p, s[1..])
  }

  lemma {:induction false} FilterAppend<T(!new)>(p: T -> bool, s: seq<T>, t: seq<T>)
    ensures Filter(p, s + t) == Filter(p, s) + Filter(p, t)
  {
    if s == [] {
      assert s + t == t;
    } else {
      assert (s + t)[1..] == s[1..] + t;
      FilterAppend(p, s[1..], t);
    }
  }

  /** What a filter makes of a list with one more element. */
  lemma {:induction false} FilterLast<T(!new)>(p: T -> bool, s: seq<T>, x: T)
    ensures Filter(p, s + [x]) == if p(x) then Filter(p, s) + [x] else Filter(p, s)
  {
    FilterAppend(p, s, [x]);
    assert Filter(p, [x]) == if p(x) then [x] else [];
  }

  /** Lists one after another. */
  function Flat<T>(lists: seq<seq<T>>): seq<T> {
    if lists == [] then [] else lists[0] + Flat(lists[1..])
  }

  /** An empty list among them makes no difference. */
  lemma {:induction false} FlatSkip<T>(a: seq<seq<T>>, b: seq<seq<T>>)
    ensures Flat(a + ([[]] + b)) == Flat(a + b)
  {
    if a == [] {
      assert a + ([[]] + b) == [[]] + b && a + b == b;
      assert ([[]] + b)[1..] == b;
    } else {
      assert (a + ([[]] + b))[1..] == a[1..] + ([[]] + b);
      assert (a + b)[1..] == a[1..] + b;
      FlatSkip(a[1..], b);
    }
  }

  lemma {:induction false} FlatLast<T>(lists: seq<seq<T>>, last: seq<T>)
    ensures Flat(lists + [last]) == Flat(lists) + last
  {
    if lists == [] {
      assert lists + [last] == [last] && [last][1..] == [];
    } else {
      assert (lists + [last])[1..] == lists[1..] + [last];
      FlatLast(lists[1..], last);
    }
  }

  lemma {:induction false} FilterAll<T(!new)>(p: T -> bool, s: seq<T>)
    requires forall x :: x in s ==> p(x)
    ensures Filter(p, s) == s
  {
    if s != [] {
      FilterAll(p, s[1..]);
    }
  }

  lemma {:induction false} FilterAgree<T(!new)>(p: T -> bool, q: T -> bool, s: seq<T>)
    requires forall x :: x in s ==> p(x) == q(x)
    ensures Filter(p, s) == Filter(q, s)
  {
    if s != [] {
      FilterAgree(p, q, s[1..]);
    }
  }

  /** The values that are there, in order. */
  function Picked<T>(items: seq<Option<T>>): seq<T> {
    if items == [] then []
    else
      var front, last := Picked(items[..|items| - 1]), items[|items| - 1];
      if last.Some? then front + [last.value] else front
  }

  lemma PickedLast<T>(items: seq<Option<T>>, last: Option<T>)
    ensures Picked(items + [last]) == if last.Some? then Picked(items) + [last.value] else Picked(items)
  {
    assert (items + [last])[..|items|] == items;
  }

  /** Blanking the values that a filter drops is filtering what is picked. */
  lemma {:induction false} PickedFilter<T(!new)>(p: T -> bool, items: seq<Option<T>>, rest: seq<Option<T>>)
    requires |rest| == |items|
    requires forall k :: 0 <= k < |items| ==>
      rest[k] == if items[k].Some? && p(items[k].value) then items[k] else None
    ensures Picked(rest) == Filter(p, Picked(items))
  {
    if items != [] {
      var n := |items| - 1;
      PickedFilter(p, items[..n], rest[..n]);
      if items[n].Some? {
        FilterLast(p, Picked(items[..n]), items[n].value);
      }
    }
  }

  lemma {:induction false} PickedHolds<T>(items: seq<Option<T>>, x: T)
    ensures x in Picked(items) <==> exists k :: 0 <= k < |items| && items[k] == Some(x)
  {
    if items != [] {
      PickedHolds(items[..|items| - 1], x);
    }
  }

  lemma {:induction false} PickedOnce<T>(items: seq<Option<T>>, x: T)
    requires forall a, b :: 0 <= a < b < |items| ==> items[a] != Some(x) || items[b] != Some(x)
    ensures Count(Picked(items), x) <= 1
  {
    if items != [] {
      var n := |items| - 1;
      PickedOnce(items[..n], x);
      if items[n].Some? {
        CountAppend(Picked(items[..n]), [items[n].value], x);
        if items[n].value == x {
          PickedHolds(items[..n], x);
        }
      }
    }
  }
}
