/** A stable sort, as sorted(...) promises it. */
module Sorting {
  function Insert<A>(x: A, s: seq<A>, leq: (A, A) -> bool): seq<A> {
    if s == [] || leq(x, s[0]) then [x] + s else [s[0]] + Insert(x, s[1..], leq)
  }

  function Sort<A>(s: seq<A>, leq: (A, A) -> bool): seq<A> {
    if s == [] then [] else Insert(s[0], Sort(s[1..], leq), leq)
  }

  ghost predicate TotalPreorder<A(!new)>(leq: (A, A) -> bool) {
    && (forall a, b :: leq(a, b) || leq(b, a))
    && (forall a, b, c :: leq(a, b) && leq(b, c) ==> leq(a, c))
  }

  ghost predicate Ordered<A>(s: seq<A>, leq: (A, A) -> bool) {
    forall i, j :: 0 <= i < j < |s| ==> leq(s[i], s[j])
  }

  lemma {:induction false} InsertSorts<A(!new)>(x: A, s: seq<A>, leq: (A, A) -> bool)
    requires TotalPreorder(leq) && Ordered(s, leq)
    ensures Ordered(Insert(x, s, leq), leq)
    ensures multiset(Insert(x, s, leq)) == multiset{x} + multiset(s)
  {
    if s != [] {
      assert s == [s[0]] + s[1..];
      if leq(x, s[0]) {
        assert forall j :: 0 <= j < |s| ==> leq(x, s[j]);
      } else {
        InsertSorts(x, s[1..], leq);
        var rest := Insert(x, s[1..], leq);
        forall j | 0 <= j < |rest| ensures leq(s[0], rest[j]) {
          assert rest[j] in multiset(rest);
          assert rest[j] == x || rest[j] in s[1..];
        }
      }
    }
  }

  lemma {:induction false} SortSorts<A(!new)>(s: seq<A>, leq: (A, A) -> bool)
    requires TotalPreorder(leq)
    ensures Ordered(Sort(s, leq), leq)
    ensures multiset(Sort(s, leq)) == multiset(s)
  {
    if s != [] {
      SortSorts(s[1..], leq);
      InsertSorts(s[0], Sort(s[1..], leq), leq);
      assert s == [s[0]] + s[1..];
    }
  }

  function Pick<A>(s: seq<A>, q: A -> bool): seq<A> {
    if s == [] then [] else (if q(s[0]) then [s[0]] else []) + Pick(s[1..], q)
  }

  lemma {:induction false} InsertStable<A(!new)>(x: A, s: seq<A>, leq: (A, A) -> bool, q: A -> bool)
    requires forall a, b :: q(a) && q(b) ==> leq(a, b)
    ensures Pick(Insert(x, s, leq), q) == (if q(x) then [x] else []) + Pick(s, q)
  {
    if s != [] && !leq(x, s[0]) {
      InsertStable(x, s[1..], leq, q);
      assert Insert(x, s, leq)[1..] == Insert(x, s[1..], leq);
    } else {
      assert Insert(x, s, leq)[1..] == s;
    }
  }

  /** Elements the order cannot tell apart keep their order. */
  lemma {:induction false} SortStable<A(!new)>(s: seq<A>, leq: (A, A) -> bool, q: A -> bool)
    requires forall a, b :: q(a) && q(b) ==> leq(a, b)
    ensures Pick(Sort(s, leq), q) == Pick(s, q)
  {
    if s != [] {
      SortStable(s[1..], leq, q);
      InsertStable(s[0], Sort(s[1..], leq), leq, q);
    }
  }
}
