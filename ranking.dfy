/** The order of search results: `sorted(out, key=lambda x: (-x[2], x[1]["name"]))`,
    a stable sort by score descending, then tool name ascending. */
module Ranking {

  import opened Text
  import opened Catalog

  /** One search result, the tuple `(c["name"], t, score)`. */
  datatype Hit = Hit(category: string, tool: Tool, score: int)

  /** `a` may stand before `b`: the key `(-score, name)` of `a` is at most that of `b`. */
  predicate Before(a: Hit, b: Hit) {
    a.score > b.score || (a.score == b.score && Le(a.tool.name, b.tool.name))
  }

  /** `h` has the sort key of score `score` and name `name`. */
  predicate HasKey(h: Hit, score: int, name: string) {
    h.score == score && h.tool.name == name
  }

  lemma BeforeTotal(a: Hit, b: Hit)
    ensures Before(a, b) || Before(b, a)
  {
    LeTotal(a.tool.name, b.tool.name);
  }

  lemma BeforeTransitive(a: Hit, b: Hit, c: Hit)
    requires Before(a, b) && Before(b, c)
    ensures Before(a, c)
  {
    if a.score == b.score == c.score {
      LeTransitive(a.tool.name, b.tool.name, c.tool.name);
    }
  }

  /** Two hits that may each stand before the other have the same key, and conversely. */
  lemma BeforeBothWays(a: Hit, b: Hit)
    ensures Before(a, b) && Before(b, a) <==> HasKey(b, a.score, a.tool.name)
  {
    LeReflexive(a.tool.name);
    if Before(a, b) && Before(b, a) {
      LeAntisymmetric(a.tool.name, b.tool.name);
    }
  }

  /** Every pair of results is in key order (so in particular every adjacent pair). */
  predicate Sorted(s: seq<Hit>) {
    forall i, j :: 0 <= i < j < |s| ==> Before(s[i], s[j])
  }

  /** The elements of `s` with key `(score, name)`, in their order in `s`. */
  function WithKey(s: seq<Hit>, score: int, name: string): seq<Hit> {
    if s == [] then []
    else (if HasKey(s[0], score, name) then [s[0]] else []) + WithKey(s[1..], score, name)
  }

  /** `a` and `b` list the elements of every key in the same order. */
  ghost predicate SameOrderPerKey(a: seq<Hit>, b: seq<Hit>) {
    forall score, name :: WithKey(a, score, name) == WithKey(b, score, name)
  }

  lemma {:induction false} WithKeyAppend(a: seq<Hit>, b: seq<Hit>, score: int, name: string)
    ensures WithKey(a + b, score, name) == WithKey(a, score, name) + WithKey(b, score, name)
  {
    if a == [] {
      assert a + b == b;
    } else {
      var c := a + b;
      var head: seq<Hit> := if HasKey(a[0], score, name) then [a[0]] else [];
      assert c[0] == a[0] && c[1..] == a[1..] + b;
      assert WithKey(c, score, name) == head + WithKey(a[1..] + b, score, name);
      assert WithKey(a, score, name) == head + WithKey(a[1..], score, name);
      WithKeyAppend(a[1..], b, score, name);
    }
  }

  lemma {:induction false} WithKeyMember(s: seq<Hit>, score: int, name: string, h: Hit)
    ensures h in WithKey(s, score, name) <==> h in s && HasKey(h, score, name)
  {
    if s != [] {
      WithKeyMember(s[1..], score, name, h);
      assert s == [s[0]] + s[1..];
    }
  }

  /** Insert `x` after every element whose key is at most its own. */
  function Insert(s: seq<Hit>, x: Hit): seq<Hit> {
    if s == [] then [x]
    else if Before(s[0], x) then [s[0]] + Insert(s[1..], x)
    else [x] + s
  }

  /** A stable sort by key: insertion of each element in turn. */
  function SortHits(s: seq<Hit>): seq<Hit> {
    if s == [] then [] else Insert(SortHits(s[..|s| - 1]), s[|s| - 1])
  }

  lemma {:induction false} InsertPermutes(s: seq<Hit>, x: Hit)
    ensures multiset(Insert(s, x)) == multiset(s) + multiset{x}
  {
    if s != [] {
      assert s == [s[0]] + s[1..];
      if Before(s[0], x) {
        InsertPermutes(s[1..], x);
      }
    }
  }

  lemma {:induction false} InsertSorted(s: seq<Hit>, x: Hit)
    requires Sorted(s)
    ensures Sorted(Insert(s, x))
  {
    if s == [] {
    } else if Before(s[0], x) {
      var r := Insert(s[1..], x);
      InsertSorted(s[1..], x);
      InsertPermutes(s[1..], x);
      forall j | 0 <= j < |r|
        ensures Before(s[0], r[j])
      {
        assert r[j] in multiset(r);
        if r[j] != x {
          assert r[j] in s[1..];
        }
      }
      assert Insert(s, x) == [s[0]] + r;
    } else {
      BeforeTotal(s[0], x);
      forall j | 0 <= j < |s|
        ensures Before(x, s[j])
      {
        if j > 0 {
          BeforeTransitive(x, s[0], s[j]);
        }
      }
    }
  }

  lemma {:induction false} WithKeyNone(s: seq<Hit>, score: int, name: string)
    requires forall k :: 0 <= k < |s| ==> !HasKey(s[k], score, name)
    ensures WithKey(s, score, name) == []
  {
    if s != [] {
      WithKeyNone(s[1..], score, name);
    }
  }

  /** Inserting `x` puts it last among the elements with its key. */
  lemma {:induction false} InsertWithKey(s: seq<Hit>, x: Hit, score: int, name: string)
    requires Sorted(s)
    ensures WithKey(Insert(s, x), score, name) == WithKey(s, score, name) + WithKey([x], score, name)
  {
    if s == [] {
    } else if Before(s[0], x) {
      InsertWithKey(s[1..], x, score, name);
      WithKeyAppend([s[0]], Insert(s[1..], x), score, name);
      WithKeyAppend([s[0]], s[1..], score, name);
      assert s == [s[0]] + s[1..];
    } else {
      WithKeyAppend([x], s, score, name);
      if HasKey(x, score, name) {
        forall k | 0 <= k < |s|
          ensures !HasKey(s[k], score, name)
        {
          if HasKey(s[k], score, name) {
            BeforeBothWays(s[k], x);
            if k > 0 {
              BeforeTransitive(s[0], s[k], x);
            }
          }
        }
        WithKeyNone(s, score, name);
      }
    }
  }

  lemma {:induction false} SortHitsSorted(s: seq<Hit>)
    ensures Sorted(SortHits(s))
  {
    if s != [] {
      SortHitsSorted(s[..|s| - 1]);
      InsertSorted(SortHits(s[..|s| - 1]), s[|s| - 1]);
    }
  }

  lemma {:induction false} SortHitsPermutes(s: seq<Hit>)
    ensures multiset(SortHits(s)) == multiset(s)
  {
    if s != [] {
      var init, x := s[..|s| - 1], s[|s| - 1];
      SortHitsPermutes(init);
      InsertPermutes(SortHits(init), x);
      assert s == init + [x];
      assert multiset(s) == multiset(init) + multiset{x};
    }
  }

  /** Elements with equal keys keep their relative order. */
  lemma {:induction false} SortHitsStable(s: seq<Hit>)
    ensures SameOrderPerKey(SortHits(s), s)
  {
    if s != [] {
      var p, x := s[..|s| - 1], s[|s| - 1];
      SortHitsStable(p);
      SortHitsSorted(p);
      forall score, name
        ensures WithKey(SortHits(s), score, name) == WithKey(s, score, name)
      {
        InsertWithKey(SortHits(p), x, score, name);
        WithKeyAppend(p, [x], score, name);
        assert s == p + [x];
      }
    }
  }

  /** A stable sort has only one possible outcome: two sorted lists that list
      the elements of every key in the same order are equal. */
  lemma {:induction false} StableSortUnique(a: seq<Hit>, b: seq<Hit>)
    requires Sorted(a) && Sorted(b)
    requires SameOrderPerKey(a, b)
    ensures a == b
    decreases |a|
  {
    if a == [] || b == [] {
      if a != [] {
        WithKeyMember(a, a[0].score, a[0].tool.name, a[0]);
      }
      if b != [] {
        WithKeyMember(b, b[0].score, b[0].tool.name, b[0]);
      }
    } else {
      var x, y := a[0], b[0];
      WithKeyMember(b, y.score, y.tool.name, y);
      WithKeyMember(a, y.score, y.tool.name, y);
      WithKeyMember(a, x.score, x.tool.name, x);
      WithKeyMember(b, x.score, x.tool.name, x);
      BeforeBothWays(x, x);
      BeforeBothWays(y, y);
      var i :| 0 <= i < |a| && a[i] == y;
      var j :| 0 <= j < |b| && b[j] == x;
      assert Before(x, y) && Before(y, x) by {
        if i > 0 { assert Before(a[0], a[i]); }
        if j > 0 { assert Before(b[0], b[j]); }
      }
      BeforeBothWays(x, y);
      assert WithKey(a, x.score, x.tool.name) == WithKey(b, x.score, x.tool.name);
      assert WithKey(a, x.score, x.tool.name) == [x] + WithKey(a[1..], x.score, x.tool.name);
      assert WithKey(b, x.score, x.tool.name) == [y] + WithKey(b[1..], x.score, x.tool.name);
      assert WithKey(a, x.score, x.tool.name)[0] == x;
      assert WithKey(b, x.score, x.tool.name)[0] == y;
      forall score, name
        ensures WithKey(a[1..], score, name) == WithKey(b[1..], score, name)
      {
        var p := if HasKey(x, score, name) then [x] else [];
        assert WithKey(a, score, name) == p + WithKey(a[1..], score, name);
        assert WithKey(b, score, name) == p + WithKey(b[1..], score, name);
        assert (p + WithKey(a[1..], score, name))[|p|..] == WithKey(a[1..], score, name);
        assert (p + WithKey(b[1..], score, name))[|p|..] == WithKey(b[1..], score, name);
      }
      StableSortUnique(a[1..], b[1..]);
      assert a == [x] + a[1..];
      assert b == [y] + b[1..];
    }
  }

  /** `SortHits` is what any stable sort by `(-score, name)` returns. */
  lemma SortHitsIsTheStableSort(s: seq<Hit>, t: seq<Hit>)
    requires Sorted(t) && SameOrderPerKey(t, s)
    ensures t == SortHits(s)
  {
    SortHitsSorted(s);
    SortHitsStable(s);
    StableSortUnique(t, SortHits(s));
  }
}
