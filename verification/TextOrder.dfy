/** Python's ordering of strings by code point, and sorting of sets by a text key. */
module TextOrder {

  predicate Less(a: string, b: string) {
    if b == [] then false
    else if a == [] then true
    else a[0] < b[0] || (a[0] == b[0] && Less(a[1..], b[1..]))
  }

  lemma {:induction false} Trichotomy(a: string, b: string)
    ensures !(Less(a, b) && Less(b, a)) && !Less(a, a)
    ensures a != b ==> Less(a, b) || Less(b, a)
  {
    if a != [] { Trichotomy(a[1..], a[1..]); }
    if a != [] && b != [] && a[0] == b[0] {
      Trichotomy(a[1..], b[1..]);
      if a[1..] == b[1..] { assert a == [a[0]] + a[1..] == [b[0]] + b[1..] == b; }
    }
  }

  lemma {:induction false} Transitive(a: string, b: string, c: string)
    requires Less(a, b) && Less(b, c)
    ensures Less(a, c)
  {
    if a != [] && a[0] == b[0] && b[0] == c[0] { Transitive(a[1..], b[1..], c[1..]); }
  }

  ghost predicate Injective<T>(s: set<T>, text: T -> string) {
    forall a, b | a in s && b in s && text(a) == text(b) :: a == b
  }

  ghost predicate IsLeast<T>(s: set<T>, text: T -> string, m: T) {
    m in s && forall x | x in s && x != m :: Less(text(m), text(x))
  }

  lemma {:induction false} LeastExists<T(!new)>(s: set<T>, text: T -> string)
    requires s != {} && Injective(s, text)
    ensures exists m :: IsLeast(s, text, m)
  {
    var m :| m in s;
    if s == {m} {
      assert IsLeast(s, text, m);
    } else {
      LeastExists(s - {m}, text);
      var least :| IsLeast(s - {m}, text, least);
      Trichotomy(text(m), text(least));
      if Less(text(m), text(least)) {
        forall x | x in s && x != m ensures Less(text(m), text(x)) {
          if x != least { Transitive(text(m), text(least), text(x)); }
        }
        assert IsLeast(s, text, m);
      } else {
        assert IsLeast(s, text, least);
      }
    }
  }

  predicate Ascending<T>(q: seq<T>, text: T -> string) {
    forall i, j | 0 <= i < j < |q| :: Less(text(q[i]), text(q[j]))
  }

  /** The elements of `s` in ascending order of their texts. */
  ghost function Sorted<T(!new)>(s: set<T>, text: T -> string): seq<T>
    requires Injective(s, text)
  {
    if s == {} then []
    else
      LeastExists(s, text);
      var m :| IsLeast(s, text, m);
      [m] + Sorted(s - {m}, text)
  }

  lemma {:induction false} SortedIsAscending<T(!new)>(s: set<T>, text: T -> string)
    requires Injective(s, text)
    ensures Ascending(Sorted(s, text), text)
    ensures forall x :: x in Sorted(s, text) <==> x in s
  {
    if s != {} {
      LeastExists(s, text);
      var m :| IsLeast(s, text, m) && Sorted(s, text) == [m] + Sorted(s - {m}, text);
      SortedIsAscending(s - {m}, text);
    }
  }

  lemma NonEmptyHas<T>(q: seq<T>)
    ensures q == [] || exists x :: x in q
  {
    if q != [] { assert q[0] in q; }
  }

  /** Two ascending listings of the same elements are the same listing. */
  lemma {:induction false} AscendingUnique<T(!new)>(p: seq<T>, q: seq<T>, text: T -> string)
    requires Ascending(p, text) && Ascending(q, text)
    requires forall x :: x in p <==> x in q
    ensures p == q
  {
    NonEmptyHas(q);
    if p != [] {
      assert p[0] in p;
      var i :| 0 <= i < |q| && q[i] == p[0];
      assert q[0] in q;
      var j :| 0 <= j < |p| && p[j] == q[0];
      Trichotomy(text(p[0]), text(q[0]));
      assert p[0] == q[0];
      forall x ensures x in p[1..] <==> x in q[1..] {
        Trichotomy(text(p[0]), text(p[0]));
        if x in p[1..] { assert x in p && x in q; }
        if x in q[1..] { assert x in q && x in p; }
      }
      AscendingUnique(p[1..], q[1..], text);
      assert p == [p[0]] + p[1..] && q == [q[0]] + q[1..];
    }
  }

  /** Insert into an ascending listing; an element already listed is not repeated. */
  function Insert<T(==)>(x: T, q: seq<T>, text: T -> string): seq<T> {
    if q == [] then [x]
    else if x == q[0] then q
    else if Less(text(x), text(q[0])) then [x] + q
    else [q[0]] + Insert(x, q[1..], text)
  }

  lemma {:induction false} InsertKeepsOrder<T(!new)>(x: T, q: seq<T>, text: T -> string)
    requires Ascending(q, text)
    requires forall y | y in q && text(y) == text(x) :: y == x
    ensures Ascending(Insert(x, q, text), text)
    ensures forall y :: y in Insert(x, q, text) <==> y == x || y in q
  {
    if q != [] && x != q[0] {
      if Less(text(x), text(q[0])) {
        var r := [x] + q;
        forall i, j | 0 <= i < j < |r| ensures Less(text(r[i]), text(r[j])) {
          if i == 0 && j > 1 { Transitive(text(x), text(q[0]), text(q[j - 1])); }
        }
      } else {
        InsertKeepsOrder(x, q[1..], text);
        var tail := Insert(x, q[1..], text);
        assert q[0] in q;
        Trichotomy(text(x), text(q[0]));
        forall y | y in tail ensures Less(text(q[0]), text(y)) {
          if y != x {
            var k :| 0 <= k < |q[1..]| && q[1..][k] == y;
            assert q[k + 1] == y;
          }
        }
        var r := [q[0]] + tail;
        forall i, j | 0 <= i < j < |r| ensures Less(text(r[i]), text(r[j])) {
          assert r[j] == tail[j - 1] && tail[j - 1] in tail;
        }
      }
    }
  }
}
