/** The orderings that the listing queries' `.sort(...)` clauses ask of MongoDB, and the
    sorted result of a query as a specification: exactly the selected documents, each once,
    in an order that respects the sort key. A compound sort such as `{ order: 1, name: 1 }`
    compares documents by a key made of the fields in turn, so each listing gives its
    documents a key in `seq<int>` and `KeyLe` compares keys lexicographically. Documents with
    equal keys may come in any order, as MongoDB does not promise one either. */
module Ordering {
  import opened Records

  /** Lexicographic order on keys; a proper prefix comes first. */
  predicate KeyLe(a: seq<int>, b: seq<int>)
    decreases |a|
  {
    if |a| == 0 then true
    else if |b| == 0 then false
    else if a[0] != b[0] then a[0] < b[0]
    else KeyLe(a[1..], b[1..])
  }

  lemma {:induction false} KeyLeTotal(a: seq<int>, b: seq<int>)
    ensures KeyLe(a, b) || KeyLe(b, a)
    decreases |a|
  {
    if |a| != 0 && |b| != 0 && a[0] == b[0] {
      KeyLeTotal(a[1..], b[1..]);
    }
  }

  lemma {:induction false} KeyLeTransitive(a: seq<int>, b: seq<int>, c: seq<int>)
    requires KeyLe(a, b) && KeyLe(b, c)
    ensures KeyLe(a, c)
    decreases |a|
  {
    if |a| != 0 && |b| != 0 && |c| != 0 && a[0] == b[0] == c[0] {
      KeyLeTransitive(a[1..], b[1..], c[1..]);
    }
  }

  /** MongoDB's default comparison of strings: lexicographic by code point (which is also
      the order of their UTF-8 bytes). */
  predicate StrLe(a: string, b: string)
    decreases |a|
  {
    if |a| == 0 then true
    else if |b| == 0 then false
    else if a[0] != b[0] then a[0] < b[0]
    else StrLe(a[1..], b[1..])
  }

  /** The code points of a string, as a sort key. */
  function Codes(s: string): (r: seq<int>)
    ensures |r| == |s|
    ensures forall i :: 0 <= i < |s| ==> r[i] == s[i] as int
  {
    seq(|s|, i requires 0 <= i < |s| => s[i] as int)
  }

  /** Comparing the code points of two strings as keys is comparing the strings. */
  lemma {:induction false} CodesOrderStrings(a: string, b: string)
    ensures KeyLe(Codes(a), Codes(b)) == StrLe(a, b)
    decreases |a|
  {
    if |a| != 0 && |b| != 0 {
      assert Codes(a)[1..] == Codes(a[1..]);
      assert Codes(b)[1..] == Codes(b[1..]);
      CodesOrderStrings(a[1..], b[1..]);
    }
  }

  /** A key whose first part has a fixed length compares by that part first: the rule of a
      compound sort. */
  lemma {:induction false} KeyLeCompound(x: seq<int>, y: seq<int>, u: seq<int>, v: seq<int>)
    requires |x| == |u|
    ensures KeyLe(x + y, u + v) == ((x == u && KeyLe(y, v)) || (x != u && KeyLe(x, u)))
    decreases |x|
  {
    if |x| != 0 {
      assert (x + y)[1..] == x[1..] + y;
      assert (u + v)[1..] == u[1..] + v;
      KeyLeCompound(x[1..], y, u[1..], v);
      if x[0] == u[0] {
        assert x != u <==> x[1..] != u[1..] by {
          assert x == [x[0]] + x[1..];
          assert u == [u[0]] + u[1..];
        }
      }
    } else {
      assert x + y == y && u + v == v;
    }
  }

  lemma {:induction false} KeyLeReflexive(a: seq<int>)
    ensures KeyLe(a, a)
    decreases |a|
  {
    if |a| != 0 {
      KeyLeReflexive(a[1..]);
    }
  }

  /** Adding the document `a` to a selection whose first document is `b`: the first of the
      two comes first in the larger selection. */
  lemma FirstOfInsert<R>(m: map<Id, R>, rest: set<Id>, key: R -> seq<int>, a: Id, b: Id)
    requires a in m && rest <= m.Keys && b in rest
    requires forall y :: y in rest ==> KeyLe(key(m[b]), key(m[y]))
    ensures var x := if KeyLe(key(m[a]), key(m[b])) then a else b;
            forall y :: y in rest + {a} ==> KeyLe(key(m[x]), key(m[y]))
  {
    KeyLeTotal(key(m[a]), key(m[b]));
    KeyLeReflexive(key(m[a]));
    if KeyLe(key(m[a]), key(m[b])) {
      forall y | y in rest
        ensures KeyLe(key(m[a]), key(m[y]))
      {
        KeyLeTransitive(key(m[a]), key(m[b]), key(m[y]));
      }
    }
  }

  /** A document that sorts first in a non-empty selection. */
  ghost function First<R>(m: map<Id, R>, ids: set<Id>, key: R -> seq<int>): (x: Id)
    requires ids != {} && ids <= m.Keys
    ensures x in ids
    ensures forall y :: y in ids ==> KeyLe(key(m[x]), key(m[y]))
    decreases ids
  {
    var a :| a in ids;
    if ids == {a} then
      KeyLeReflexive(key(m[a]));
      a
    else
      var rest := ids - {a};
      var b := First(m, rest, key);
      FirstOfInsert(m, rest, key, a, b);
      assert rest + {a} == ids;
      if KeyLe(key(m[a]), key(m[b])) then a else b
  }

  /** `key` orders `s` from first to last. */
  ghost predicate SortedBy<R>(m: map<Id, R>, s: seq<Id>, key: R -> seq<int>)
    requires forall i :: 0 <= i < |s| ==> s[i] in m
  {
    forall i, j :: 0 <= i < j < |s| ==> KeyLe(key(m[s[i]]), key(m[s[j]]))
  }

  /** A first document that sorts before all the others, followed by the rest in order,
      is in order. */
  lemma PrependFirst<R>(m: map<Id, R>, ids: set<Id>, key: R -> seq<int>, first: Id, rest: seq<Id>)
    requires first in ids && ids <= m.Keys
    requires forall y :: y in ids ==> KeyLe(key(m[first]), key(m[y]))
    requires forall i :: 0 <= i < |rest| ==> rest[i] in ids
    requires SortedBy(m, rest, key)
    ensures SortedBy(m, [first] + rest, key)
  {
    var s := [first] + rest;
    forall i, j | 0 <= i < j < |s|
      ensures KeyLe(key(m[s[i]]), key(m[s[j]]))
    {
      assert s[j] == rest[j - 1];
      if 0 < i {
        assert s[i] == rest[i - 1];
      }
    }
  }

  /** The documents `ids` of collection `m` as a query sorted by `key` returns them. */
  ghost function SortedIds<R>(m: map<Id, R>, ids: set<Id>, key: R -> seq<int>): (s: seq<Id>)
    requires ids <= m.Keys
    ensures |s| == |ids|
    ensures forall id :: id in s <==> id in ids
    ensures forall i, j :: 0 <= i < j < |s| ==> s[i] != s[j]
    ensures SortedBy(m, s, key)
    decreases ids
  {
    if ids == {} then []
    else
      var first := First(m, ids, key);
      var rest := SortedIds(m, ids - {first}, key);
      assert forall i :: 0 <= i < |rest| ==> rest[i] in ids;
      PrependFirst(m, ids, key, first, rest);
      [first] + rest
  }
}
