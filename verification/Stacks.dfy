/**
 The `vector` used as a stack: the last element is the top.
 */
module Stacks {

  datatype Option<+T> = None | Some(value: T)

  function Top<T>(s: seq<T>): T
    requires |s| > 0
  {
    s[|s| - 1]
  }

  function Pop<T>(s: seq<T>): seq<T>
    requires |s| > 0
  {
    s[..|s| - 1]
  }

  function Reverse<T>(s: seq<T>): (r: seq<T>)
    ensures |r| == |s|
  {
    if |s| == 0 then [] else [Top(s)] + Reverse(Pop(s))
  }

  lemma {:induction false} ReverseConcat<T>(a: seq<T>, b: seq<T>)
    ensures Reverse(a + b) == Reverse(b) + Reverse(a)
  {
    if |b| == 0 {
      assert a + b == a;
    } else {
      assert Pop(a + b) == a + Pop(b);
      ReverseConcat(a, Pop(b));
    }
  }

  lemma {:induction false} ReverseAround<T>(a: seq<T>, x: T, b: seq<T>)
    ensures Reverse(a + [x] + b) == Reverse(b) + [x] + Reverse(a)
  {
    ReverseConcat(a + [x], b);
    assert Pop(a + [x]) == a;
    assert Reverse(a + [x]) == [x] + Reverse(a);
    assert Reverse(b) + ([x] + Reverse(a)) == Reverse(b) + [x] + Reverse(a);
  }

  lemma {:induction false} ReverseTwice<T>(s: seq<T>)
    ensures Reverse(Reverse(s)) == s
  {
    if |s| > 0 {
      ReverseTwice(Pop(s));
      ReverseConcat([Top(s)], Reverse(Pop(s)));
      assert Reverse([Top(s)]) == [Top(s)];
    }
  }

  lemma {:induction false} ReverseMember<T>(s: seq<T>, x: T)
    ensures x in Reverse(s) <==> x in s
  {
    if |s| > 0 {
      ReverseMember(Pop(s), x);
      assert s == Pop(s) + [Top(s)];
    }
  }

  /** What popping down to `n` elements leaves. */
  function Truncated<T>(s: seq<T>, n: int): seq<T>
  {
    if n < 0 then [] else if n < |s| then s[..n] else s
  }

  /** The index `std::find` reports, or -1. */
  function IndexOf<T(==)>(s: seq<T>, x: T): (r: int)
    ensures -1 <= r < |s|
    ensures r == -1 <==> x !in s
  {
    if |s| == 0 then -1
    else if s[0] == x then 0
    else
      var r := IndexOf(s[1..], x);
      if r == -1 then -1 else r + 1
  }

  lemma {:induction false} IndexOfFirst<T>(a: seq<T>, x: T, b: seq<T>)
    requires x !in a
    ensures IndexOf(a + [x] + b, x) == |a|
  {
    if |a| == 0 {
      assert (a + [x] + b)[0] == x;
    } else {
      assert (a + [x] + b)[1..] == a[1..] + [x] + b;
      IndexOfFirst(a[1..], x, b);
    }
  }
}
