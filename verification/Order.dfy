/** Total orders, lexicographic comparison, and the one sorted arrangement of a collection of rows. */
module Order {
  ghost predicate TotalOrder<T(!new)>(leq: (T, T) -> bool) {
    && (forall a, b :: leq(a, b) || leq(b, a))
    && (forall a, b :: leq(a, b) && leq(b, a) ==> a == b)
    && (forall a, b, c :: leq(a, b) && leq(b, c) ==> leq(a, c))
  }

  predicate Sorted<T>(leq: (T, T) -> bool, s: seq<T>) {
    forall i, j :: 0 <= i < j < |s| ==> leq(s[i], s[j])
  }

  /** The first of a sorted arrangement is below every element. */
  lemma HeadIsLeast<T(!new)>(leq: (T, T) -> bool, s: seq<T>, x: T)
    requires TotalOrder(leq) && Sorted(leq, s) && x in multiset(s)
    ensures s != [] && leq(s[0], x)
  {
    var i :| 0 <= i < |s| && s[i] == x;
    assert leq(s[0], s[0]);
  }

  lemma TailsMatch<T>(s: seq<T>, t: seq<T>)
    requires s != [] && t != [] && s[0] == t[0] && multiset(s) == multiset(t)
    ensures multiset(s[1..]) == multiset(t[1..])
  {
    assert s == [s[0]] + s[1..] && t == [t[0]] + t[1..];
    assert multiset(s) == multiset{s[0]} + multiset(s[1..]);
    assert multiset(t) == multiset{t[0]} + multiset(t[1..]);
    assert multiset(s[1..]) == multiset(s) - multiset{s[0]};
  }

  /** There is only one sorted arrangement of given elements. */
  lemma {:induction false} SortedIsUnique<T(!new)>(leq: (T, T) -> bool, s: seq<T>, t: seq<T>)
    requires TotalOrder(leq) && Sorted(leq, s) && Sorted(leq, t) && multiset(s) == multiset(t)
    ensures s == t
  {
    assert |multiset(s)| == |s| && |multiset(t)| == |t|;
    if s != [] {
      assert s[0] in multiset(s) && t[0] in multiset(t);
      HeadIsLeast(leq, s, t[0]);
      HeadIsLeast(leq, t, s[0]);
      TailsMatch(s, t);
      SortedIsUnique(leq, s[1..], t[1..]);
      assert s == [s[0]] + s[1..] && t == [t[0]] + t[1..];
    }
  }

  function Insert<T>(leq: (T, T) -> bool, x: T, s: seq<T>): seq<T> {
    if s == [] then [x] else if leq(x, s[0]) then [x] + s else [s[0]] + Insert(leq, x, s[1..])
  }

  lemma {:induction false} InsertAdds<T>(leq: (T, T) -> bool, x: T, s: seq<T>)
    ensures multiset(Insert(leq, x, s)) == multiset{x} + multiset(s)
  {
    if s != [] && !leq(x, s[0]) {
      InsertAdds(leq, x, s[1..]);
      assert s == [s[0]] + s[1..];
    }
  }

  lemma SortedCons<T>(leq: (T, T) -> bool, x: T, s: seq<T>)
    requires Sorted(leq, s) && forall i :: 0 <= i < |s| ==> leq(x, s[i])
    ensures Sorted(leq, [x] + s)
  {
  }

  lemma {:induction false} InsertSorts<T(!new)>(leq: (T, T) -> bool, x: T, s: seq<T>)
    requires TotalOrder(leq) && Sorted(leq, s)
    ensures Sorted(leq, Insert(leq, x, s))
  {
    if s != [] {
      if leq(x, s[0]) {
        forall i | 0 <= i < |s| ensures leq(x, s[i]) { assert i == 0 || leq(s[0], s[i]); }
        SortedCons(leq, x, s);
      } else {
        var r := Insert(leq, x, s[1..]);
        InsertSorts(leq, x, s[1..]);
        InsertAdds(leq, x, s[1..]);
        forall i | 0 <= i < |r| ensures leq(s[0], r[i]) {
          assert r[i] in multiset(r);
          if r[i] != x {
            var l :| 0 <= l < |s[1..]| && s[1..][l] == r[i];
            assert s[1..][l] == s[l + 1];
          }
        }
        SortedCons(leq, s[0], r);
      }
    }
  }

  /** Lexicographic comparison; of texts, when `leq` compares characters. */
  predicate Lex<T(==)>(leq: (T, T) -> bool, a: seq<T>, b: seq<T>) {
    a == [] || (b != [] && if a[0] == b[0] then Lex(leq, a[1..], b[1..]) else leq(a[0], b[0]))
  }

  lemma {:induction false} LexTotal<T(!new)>(leq: (T, T) -> bool, a: seq<T>, b: seq<T>)
    requires TotalOrder(leq)
    ensures Lex(leq, a, b) || Lex(leq, b, a)
    ensures Lex(leq, a, b) && Lex(leq, b, a) ==> a == b
  {
    if a != [] && b != [] && a[0] == b[0] {
      LexTotal(leq, a[1..], b[1..]);
      assert a == [a[0]] + a[1..] && b == [b[0]] + b[1..];
    }
  }

  lemma {:induction false} LexTransitive<T(!new)>(leq: (T, T) -> bool, a: seq<T>, b: seq<T>, c: seq<T>)
    requires TotalOrder(leq) && Lex(leq, a, b) && Lex(leq, b, c)
    ensures Lex(leq, a, c)
  {
    if a != [] {
      assert leq(a[0], b[0]) && leq(b[0], a[0]) ==> a[0] == b[0];
      if a[0] == b[0] == c[0] { LexTransitive(leq, a[1..], b[1..], c[1..]); }
    }
  }

  /** Lexicographic comparison of sequences is a total order if the comparison of elements is one. */
  lemma LexIsTotalOrder<T(!new)>(leq: (T, T) -> bool)
    requires TotalOrder(leq)
    ensures TotalOrder((a: seq<T>, b: seq<T>) => Lex(leq, a, b))
  {
    forall a: seq<T>, b: seq<T>
      ensures (Lex(leq, a, b) || Lex(leq, b, a)) && (Lex(leq, a, b) && Lex(leq, b, a) ==> a == b)
    {
      LexTotal(leq, a, b);
    }
    forall a: seq<T>, b: seq<T>, c: seq<T> | Lex(leq, a, b) && Lex(leq, b, c) ensures Lex(leq, a, c) {
      LexTransitive(leq, a, b, c);
    }
  }

  /** Code point order of texts. */
  const CHAR_LEQ: (char, char) -> bool := (x, y) => x <= y

  predicate TextLeq(a: string, b: string) { Lex(CHAR_LEQ, a, b) }

  lemma TextIsTotalOrder()
    ensures TotalOrder(TextLeq)
  {
    LexIsTotalOrder(CHAR_LEQ);
    assert forall a, b :: TextLeq(a, b) == ((x: string, y: string) => Lex(CHAR_LEQ, x, y))(a, b);
  }
}
