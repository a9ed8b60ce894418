/**
 * The order a checked ticket shows its lines in: by result, highest first,
 * with lines of equal result kept in the order they had (a stable sort).
 */
module LineOrder {
  import opened Lines

  /** Results never increase along the sequence. */
  predicate SortedDesc(s: seq<Line>) {
    forall i, j :: 0 <= i < j < |s| ==> s[i].result >= s[j].result
  }

  /** The lines of s whose result is v, in their order in s. */
  function WithResult(s: seq<Line>, v: int): (r: seq<Line>)
    ensures forall x :: x in r <==> x in s && x.result == v
    ensures |r| <= |s|
  {
    if s == [] then []
    else (if s[0].result == v then [s[0]] else []) + WithResult(s[1..], v)
  }

  /** Places x before the first line of s whose result is not above x's. */
  function Insert(x: Line, s: seq<Line>): seq<Line> {
    if s == [] then [x]
    else if x.result >= s[0].result then [x] + s
    else [s[0]] + Insert(x, s[1..])
  }

  /** The stable descending sort by result that checking a ticket applies. */
  function SortByResultDesc(s: seq<Line>): seq<Line> {
    if s == [] then [] else Insert(s[0], SortByResultDesc(s[1..]))
  }

  /**
   * after is before re-ordered by result, highest first, with equal results in
   * their original relative order: sorted, a permutation, and stable.
   */
  ghost predicate StablyRanked(before: seq<Line>, after: seq<Line>) {
    && SortedDesc(after)
    && multiset(after) == multiset(before)
    && forall v :: WithResult(after, v) == WithResult(before, v)
  }

  lemma {:induction false} WithResultAppend(a: seq<Line>, b: seq<Line>, v: int)
    ensures WithResult(a + b, v) == WithResult(a, v) + WithResult(b, v)
    decreases |a|
  {
    if a == [] {
      assert a + b == b;
    } else {
      assert (a + b)[1..] == a[1..] + b;
      WithResultAppend(a[1..], b, v);
    }
  }

  lemma {:induction false} InsertPermutes(x: Line, s: seq<Line>)
    ensures multiset(Insert(x, s)) == multiset(s) + multiset{x}
    ensures |Insert(x, s)| == |s| + 1
    decreases |s|
  {
    if s != [] && x.result < s[0].result {
      InsertPermutes(x, s[1..]);
      assert s == [s[0]] + s[1..];
    }
  }

  lemma {:induction false} InsertSorted(x: Line, s: seq<Line>)
    requires SortedDesc(s)
    ensures SortedDesc(Insert(x, s))
    decreases |s|
  {
    if s != [] && x.result < s[0].result {
      InsertSorted(x, s[1..]);
      InsertPermutes(x, s[1..]);
      var r := Insert(x, s[1..]);
      forall j | 0 <= j < |r| ensures s[0].result >= r[j].result {
        assert r[j] in multiset(s[1..]) + multiset{x};
      }
    }
  }

  lemma WithResultSingle(x: Line, v: int)
    ensures WithResult([x], v) == if x.result == v then [x] else []
  {
    assert [x][1..] == [];
  }

  /** Inserting x adds it ahead of the lines of equal result, and touches no other result. */
  lemma {:induction false} InsertWithResult(x: Line, s: seq<Line>, v: int)
    ensures WithResult(Insert(x, s), v) == (if x.result == v then [x] else []) + WithResult(s, v)
    decreases |s|
  {
    if s == [] {
    } else if x.result >= s[0].result {
      WithResultAppend([x], s, v);
      WithResultSingle(x, v);
    } else {
      InsertWithResult(x, s[1..], v);
      WithResultAppend([s[0]], Insert(x, s[1..]), v);
      assert s == [s[0]] + s[1..];
      WithResultAppend([s[0]], s[1..], v);
      WithResultSingle(x, v);
      WithResultSingle(s[0], v);
    }
  }

  /** The sort is sorted, a permutation, and stable. */
  lemma {:induction false} SortRanks(s: seq<Line>)
    ensures StablyRanked(s, SortByResultDesc(s))
    decreases |s|
  {
    if s != [] {
      var rest := SortByResultDesc(s[1..]);
      SortRanks(s[1..]);
      InsertSorted(s[0], rest);
      InsertPermutes(s[0], rest);
      assert s == [s[0]] + s[1..];
      forall v ensures WithResult(Insert(s[0], rest), v) == WithResult(s, v) {
        InsertWithResult(s[0], rest, v);
        WithResultAppend([s[0]], s[1..], v);
      }
    }
  }

  lemma HeadIsCounted(s: seq<Line>)
    ensures s != [] ==> WithResult(s, s[0].result) != []
  {
  }

  /**
   * Sortedness and stability pin the order down: two sorted sequences with
   * the same lines of each result, in the same order, are equal.
   */
  lemma {:induction false} RankedUnique(a: seq<Line>, b: seq<Line>)
    requires SortedDesc(a) && SortedDesc(b)
    requires forall v :: WithResult(a, v) == WithResult(b, v)
    ensures a == b
    decreases |a|
  {
    if a == [] && b == [] {
    } else if a == [] {
      HeadIsCounted(b);
      assert false;
    } else if b == [] {
      HeadIsCounted(a);
      assert false;
    } else {
      assert a[0] in WithResult(b, a[0].result);
      assert b[0] in WithResult(a, b[0].result);
      var m := a[0].result;
      assert b[0].result == m;
      assert a == [a[0]] + a[1..] && b == [b[0]] + b[1..];
      WithResultAppend([a[0]], a[1..], m);
      WithResultAppend([b[0]], b[1..], m);
      assert a[0] == b[0];
      forall v ensures WithResult(a[1..], v) == WithResult(b[1..], v) {
        WithResultAppend([a[0]], a[1..], v);
        WithResultAppend([b[0]], b[1..], v);
        var k := |WithResult([a[0]], v)|;
        assert WithResult(a, v) == WithResult(b, v);
        assert WithResult(a[1..], v) == WithResult(a, v)[k..];
        assert WithResult(b[1..], v) == WithResult(b, v)[k..];
      }
      RankedUnique(a[1..], b[1..]);
    }
  }

  /** The sort is the only stable descending order of the lines. */
  lemma SortIsUnique(s: seq<Line>, r: seq<Line>)
    requires StablyRanked(s, r)
    ensures r == SortByResultDesc(s)
  {
    SortRanks(s);
    RankedUnique(r, SortByResultDesc(s));
  }

  /** Lines already in order are left exactly as they are. */
  lemma SortKeepsSorted(s: seq<Line>)
    requires SortedDesc(s)
    ensures SortByResultDesc(s) == s
  {
    SortIsUnique(s, s);
  }

  /** Sorting twice is sorting once. */
  lemma SortIdempotent(s: seq<Line>)
    ensures SortByResultDesc(SortByResultDesc(s)) == SortByResultDesc(s)
  {
    SortRanks(s);
    SortKeepsSorted(SortByResultDesc(s));
  }
}
