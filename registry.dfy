/** The list of connected sockets, and removal by `filter` (server.js:68). */
module Registry {

  /** A socket's identity; sockets are compared by identity (server.js:68). */
  type SocketId = string

  /** `s` with every occurrence of `x` removed, the rest in their original order. */
  function Without(s: seq<SocketId>, x: SocketId): (r: seq<SocketId>)
    ensures forall y :: y in r <==> y in s && y != x
    ensures |r| <= |s|
  {
    if s == [] then [] else (if s[0] == x then [] else [s[0]]) + Without(s[1..], x)
  }

  /** Removing a socket that is not in the list is a no-op. */
  lemma {:induction false} WithoutAbsent(s: seq<SocketId>, x: SocketId)
    requires x !in s
    ensures Without(s, x) == s
  {
    if s != [] {
      WithoutAbsent(s[1..], x);
    }
  }

  /** Removal works piecewise, so the survivors keep their relative order. */
  lemma {:induction false} WithoutConcat(a: seq<SocketId>, b: seq<SocketId>, x: SocketId)
    ensures Without(a + b, x) == Without(a, x) + Without(b, x)
  {
    if a != [] {
      assert (a + b)[1..] == a[1..] + b;
      WithoutConcat(a[1..], b, x);
    } else {
      assert a + b == b;
    }
  }

  /** Exactly the occurrences of `x` are removed: every other socket keeps its multiplicity. */
  lemma {:induction false} WithoutMultiset(s: seq<SocketId>, x: SocketId)
    ensures multiset(Without(s, x)) == multiset(s)[x := 0]
  {
    if s != [] {
      WithoutMultiset(s[1..], x);
      assert s == [s[0]] + s[1..];
    }
  }

  /** A socket registered once is removed, and the sockets before and after it close up. */
  lemma WithoutSingle(a: seq<SocketId>, x: SocketId, b: seq<SocketId>)
    requires x !in a && x !in b
    ensures Without(a + [x] + b, x) == a + b
  {
    assert Without([x], x) == [] by {
      assert [x][1..] == [];
    }
    calc {
      Without(a + [x] + b, x);
      { WithoutConcat(a + [x], b, x); }
      Without(a + [x], x) + Without(b, x);
      { WithoutConcat(a, [x], x); }
      Without(a, x) + Without(b, x);
      { WithoutAbsent(a, x); WithoutAbsent(b, x); }
      a + b;
    }
  }
}
