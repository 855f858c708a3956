/** Stable sorting by a total preorder, as the language's own sort provides it. */
module Sorting {

  ghost predicate TotalPreorder<T(!new)>(le: (T, T) -> bool) {
    && (forall x, y :: le(x, y) || le(y, x))
    && (forall x, y, z :: le(x, y) && le(y, z) ==> le(x, z))
  }

  ghost predicate Ordered<T>(s: seq<T>, le: (T, T) -> bool) {
    forall i, j :: 0 <= i < j < |s| ==> le(s[i], s[j])
  }

  /** Puts x before the first element it is not above. */
  function Insert<T>(x: T, s: seq<T>, le: (T, T) -> bool): seq<T> {
    if s == [] then [x]
    else if le(x, s[0]) then [x] + s
    else [s[0]] + Insert(x, s[1..], le)
  }

  function Sort<T>(s: seq<T>, le: (T, T) -> bool): seq<T> {
    if s == [] then [] else Insert(s[0], Sort(s[1..], le), le)
  }

  lemma {:induction false} InsertAddsOne<T>(x: T, s: seq<T>, le: (T, T) -> bool)
    ensures multiset(Insert(x, s, le)) == multiset(s) + multiset{x}
  {
    if s != [] {
      assert s == [s[0]] + s[1..];
      if !le(x, s[0]) {
        InsertAddsOne(x, s[1..], le);
      }
    }
  }

  lemma OrderedCons<T>(x: T, s: seq<T>, le: (T, T) -> bool)
    requires Ordered(s, le) && forall k :: 0 <= k < |s| ==> le(x, s[k])
    ensures Ordered([x] + s, le)
  {
    var t := [x] + s;
    forall i, j | 0 <= i < j < |t| ensures le(t[i], t[j]) {
      assert t[j] == s[j - 1];
    }
  }

  lemma {:induction false} InsertOrders<T(!new)>(x: T, s: seq<T>, le: (T, T) -> bool)
    requires TotalPreorder(le) && Ordered(s, le)
    ensures Ordered(Insert(x, s, le), le)
  {
    if s != [] {
      if le(x, s[0]) {
        OrderedCons(x, s, le);
      } else {
        var tail := s[1..];
        InsertOrders(x, tail, le);
        InsertAddsOne(x, tail, le);
        var rest := Insert(x, tail, le);
        forall k | 0 <= k < |rest| ensures le(s[0], rest[k]) {
          assert rest[k] in multiset(rest);
        }
        OrderedCons(s[0], rest, le);
      }
    }
  }

  /** Sorting orders the elements and neither loses nor invents any. */
  lemma {:induction false} SortOrders<T(!new)>(s: seq<T>, le: (T, T) -> bool)
    requires TotalPreorder(le)
    ensures Ordered(Sort(s, le), le)
    ensures multiset(Sort(s, le)) == multiset(s)
  {
    if s != [] {
      SortOrders(s[1..], le);
      InsertOrders(s[0], Sort(s[1..], le), le);
      InsertAddsOne(s[0], Sort(s[1..], le), le);
      assert s == [s[0]] + s[1..];
    }
  }

  /** The elements tied with c, in order. */
  function TiedWith<T>(s: seq<T>, c: T, le: (T, T) -> bool): seq<T> {
    if s == [] then []
    else (if le(s[0], c) && le(c, s[0]) then [s[0]] else []) + TiedWith(s[1..], c, le)
  }

  lemma TiedWithCons<T>(x: T, s: seq<T>, c: T, le: (T, T) -> bool)
    ensures TiedWith([x] + s, c, le) == (if le(x, c) && le(c, x) then [x] else []) + TiedWith(s, c, le)
  {
    assert ([x] + s)[1..] == s;
  }

  lemma {:induction false} InsertKeepsTies<T(!new)>(x: T, s: seq<T>, c: T, le: (T, T) -> bool)
    requires TotalPreorder(le)
    ensures TiedWith(Insert(x, s, le), c, le) == (if le(x, c) && le(c, x) then [x] else []) + TiedWith(s, c, le)
  {
    hide TiedWith;
    if s == [] || le(x, s[0]) {
      assert Insert(x, s, le) == [x] + s;
      TiedWithCons(x, s, c, le);
    } else {
      var head, tail := s[0], s[1..];
      assert s == [head] + tail;
      InsertKeepsTies(x, tail, c, le);
      TiedWithCons(head, tail, c, le);
      TiedWithCons(head, Insert(x, tail, le), c, le);
      assert !le(x, head) && le(head, x);
    }
  }

  /** Sorting is stable: elements tied with one another keep their order. */
  lemma {:induction false} SortIsStable<T(!new)>(s: seq<T>, c: T, le: (T, T) -> bool)
    requires TotalPreorder(le)
    ensures TiedWith(Sort(s, le), c, le) == TiedWith(s, c, le)
  {
    if s != [] {
      SortIsStable(s[1..], c, le);
      InsertKeepsTies(s[0], Sort(s[1..], le), c, le);
    }
  }
}
