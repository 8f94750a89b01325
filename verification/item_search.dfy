/**
 * `ItemLookup.search_items` and `search_items_advanced` (core/item_db.py):
 * the three-pass name search over the id table, and the filtered search
 * ordered by relevance.
 *
 * The search is stated twice: `SearchItems` runs the three passes as the
 * source does, and `Ranked` lists every matching item by how well it
 * matches; `SearchMatchesRanked` proves that the passes return the first
 * `limit` entries of that list.
 */
module ItemSearch {
  import opened Values
  import opened Py
  import opened ItemDb

  // ---------------------------------------------------------------- matching

  /** The three passes: names equal to the query, starting with it, containing it. */
  datatype Mode = Exact | Prefix | Infix

  /** Whether an item name matches the lower-cased, stripped query in a pass. */
  predicate Matches(mode: Mode, name: string, q: string)
  {
    match mode
    case Exact => Lower(name) == q
    case Prefix => StartsWith(Lower(name), q)
    case Infix => Contains(Lower(name), q)
  }

  function Level(mode: Mode): nat
  {
    match mode
    case Exact => 0
    case Prefix => 1
    case Infix => 2
  }

  /** How well an item matches: 0 its name is the query, 1 starts with it, 2 contains it, 3 none of these. */
  function Rank(x: Item, q: string): nat
  {
    var n := Lower(x.name);
    if n == q then 0 else if StartsWith(n, q) then 1 else if Contains(n, q) then 2 else 3
  }

  /** A sort key over items: the rank for a query, or the relevance score for a query. */
  datatype Key = RankFor(q: string) | RelevanceFor(ql: string)

  function Score(key: Key, x: Item): nat
  {
    match key
    case RankFor(q) => Rank(x, q)
    case RelevanceFor(ql) => Relevance(x, ql)
  }

  /** Each pass accepts exactly the items ranked at or below its level: the passes are nested. */
  lemma MatchesIsRank(mode: Mode, x: Item, q: string)
    ensures Matches(mode, x.name, q) <==> Rank(x, q) <= Level(mode)
  {
    var n := Lower(x.name);
    if n == q {
      assert n[..|q|] == n;
    }
  }

  // ---------------------------------------------------------------- ordered filters

  /** The items of `xs` on which `key` is `k`, in their order in `xs`. */
  function Bucket(xs: seq<Item>, key: Key, k: nat): (r: seq<Item>)
    ensures |r| <= |xs|
  {
    if |xs| == 0 then []
    else (if Score(key, xs[0]) == k then [xs[0]] else []) + Bucket(xs[1..], key, k)
  }

  /** A bucket holds exactly the items of its key, taken from the input. */
  lemma {:induction false} BucketMembers(xs: seq<Item>, key: Key, k: nat)
    ensures forall x :: x in Bucket(xs, key, k) <==> x in xs && Score(key, x) == k
  {
    if |xs| > 0 {
      BucketMembers(xs[1..], key, k);
      assert forall x :: x in xs <==> x == xs[0] || x in xs[1..];
    }
  }

  /** A stable sort by a key in {0, 1, 2}: the items keyed 0, then 1, then 2, each in input order. */
  function Buckets(xs: seq<Item>, key: Key): seq<Item>
  {
    Bucket(xs, key, 0) + Bucket(xs, key, 1) + Bucket(xs, key, 2)
  }

  predicate SortedBy(xs: seq<Item>, key: Key)
  {
    forall i, j :: 0 <= i < j < |xs| ==> Score(key, xs[i]) <= Score(key, xs[j])
  }

  /** The first `n` items of `s`, or all of them. */
  function Take(s: seq<Item>, n: nat): (r: seq<Item>)
    ensures |r| == if n < |s| then n else |s|
    ensures r == s[..|r|]
  {
    if n < |s| then s[..n] else s
  }

  // ---------------------------------------------------------------- search_items

  /** `not query or not query.strip()`. */
  predicate Blank(query: string)
  {
    query == "" || Strip(query) == ""
  }

  /** `query.lower().strip()`. */
  function Normalize(query: string): string
  {
    Strip(Lower(query))
  }

  /** Whether a pass adds `x` to results holding the ids `seen`. */
  predicate Adds(mode: Mode, x: Item, q: string, seen: set<int>)
  {
    Matches(mode, x.name, q) && (mode == Exact || x.id !in seen)
  }

  /**
   * One pass over the id table in its order: a matching item not yet in the
   * results (the exact pass does not check, its results start empty) is
   * added, and the pass stops as soon as the number of results reaches
   * `limit`.  The results are the dictionary's values in insertion order.
   */
  function Pass(items: seq<Item>, q: string, mode: Mode, acc: seq<Item>, limit: int): (r: seq<Item>)
    ensures |acc| <= |r| && r[..|acc|] == acc
    ensures |r| <= if |acc| < limit then limit else |acc| + 1
    decreases |items|
  {
    if |items| == 0 then acc
    else
      var x := items[0];
      if Adds(mode, x, q, IdsOf(acc)) then
        var grown := acc + [x];
        if |grown| >= limit then grown else Pass(items[1..], q, mode, grown, limit)
      else Pass(items[1..], q, mode, acc, limit)
  }

  /**
   * `search_items` as written: a blank query finds nothing; otherwise the
   * exact pass runs, and each later pass only while fewer than `limit`
   * results are held.  With `limit <= 0` the exact pass still adds the first
   * exact match before its check stops it.
   */
  function SearchItems(t: Table, query: string, limit: int): (r: seq<Item>)
    ensures Blank(query) ==> r == []
    ensures |r| <= if limit >= 1 then limit else 1
  {
    if Blank(query) then [] else Passes(t.byId, Normalize(query), limit)
  }

  /** The three passes of `search_items` over the table for the normalised query `q`. */
  function Passes(items: seq<Item>, q: string, limit: int): (r: seq<Item>)
    ensures |r| <= if limit >= 1 then limit else 1
  {
    var r1 := Pass(items, q, Exact, [], limit);
    var r2 := if |r1| < limit then Pass(items, q, Prefix, r1, limit) else r1;
    if |r2| < limit then Pass(items, q, Infix, r2, limit) else r2
  }

  /** `search_items` with its limit honoured: a limit of zero or less finds nothing. */
  function SearchItemsBounded(t: Table, query: string, limit: int): (r: seq<Item>)
    ensures |r| <= if limit > 0 then limit else 0
    ensures Blank(query) ==> r == []
    ensures limit > 0 ==> r == SearchItems(t, query, limit)
  {
    if limit <= 0 then [] else SearchItems(t, query, limit)
  }

  /** The reference order: every item whose name contains `q`, exact matches first, then prefixes, then the rest. */
  function Ranked(items: seq<Item>, q: string): seq<Item>
  {
    Buckets(items, RankFor(q))
  }

  // ---------------------------------------------------------------- lemmas about lists of items

  lemma DistinctTail(s: seq<Item>)
    requires |s| > 0 && DistinctIds(s)
    ensures DistinctIds(s[1..])
  {
    forall i, j | 0 <= i < j < |s[1..]| ensures s[1..][i].id != s[1..][j].id {
      assert s[1..][i] == s[i + 1] && s[1..][j] == s[j + 1];
    }
  }

  lemma IdsSnoc(s: seq<Item>, x: Item)
    ensures IdsOf(s + [x]) == IdsOf(s) + {x.id}
  {
    assert forall y :: y in s + [x] <==> y in s || y == x;
  }

  /** In a list with distinct ids an id names one item. */
  lemma SameId(s: seq<Item>, x: Item, y: Item)
    requires DistinctIds(s) && x in s && y in s && x.id == y.id
    ensures x == y
  {
    var i :| 0 <= i < |s| && s[i] == x;
    var j :| 0 <= j < |s| && s[j] == y;
    assert i == j;
  }

  lemma DistinctConcat(a: seq<Item>, b: seq<Item>)
    requires DistinctIds(a) && DistinctIds(b)
    requires forall x, y :: x in a && y in b ==> x.id != y.id
    ensures DistinctIds(a + b)
  {
    var r := a + b;
    forall i, j | 0 <= i < j < |r| ensures r[i].id != r[j].id {
      if j < |a| {
        assert r[i] == a[i] && r[j] == a[j];
      } else if i >= |a| {
        assert r[i] == b[i - |a|] && r[j] == b[j - |a|];
      } else {
        assert r[i] == a[i] && r[j] == b[j - |a|];
      }
    }
  }

  lemma {:induction false} BucketDistinct(xs: seq<Item>, key: Key, k: nat)
    requires DistinctIds(xs)
    ensures DistinctIds(Bucket(xs, key, k))
  {
    if |xs| > 0 {
      DistinctTail(xs);
      BucketDistinct(xs[1..], key, k);
      BucketUnfold(xs, key, k);
      if Score(key, xs[0]) == k {
        DistinctHead(xs);
        BucketMembers(xs[1..], key, k);
        assert xs[0].id !in IdsOf(Bucket(xs[1..], key, k));
        DistinctCons(xs[0], Bucket(xs[1..], key, k));
      } else {
        assert Bucket(xs, key, k) == Bucket(xs[1..], key, k);
      }
    }
  }

  /** The stable sort keeps ids distinct. */
  lemma BucketsDistinct(xs: seq<Item>, key: Key)
    requires DistinctIds(xs)
    ensures DistinctIds(Buckets(xs, key))
  {
    var b0, b1, b2 := Bucket(xs, key, 0), Bucket(xs, key, 1), Bucket(xs, key, 2);
    BucketDistinct(xs, key, 0);
    BucketDistinct(xs, key, 1);
    BucketDistinct(xs, key, 2);
    BucketMembers(xs, key, 0);
    BucketMembers(xs, key, 1);
    BucketMembers(xs, key, 2);
    forall x, y | x in b0 && y in b1 ensures x.id != y.id {
      if x.id == y.id { SameId(xs, x, y); }
    }
    DistinctConcat(b0, b1);
    forall x, y | x in b0 + b1 && y in b2 ensures x.id != y.id {
      if x.id == y.id { SameId(xs, x, y); }
    }
    DistinctConcat(b0 + b1, b2);
  }

  /** The stable sort's output is ordered by the key. */
  lemma BucketsSorted(xs: seq<Item>, key: Key)
    ensures SortedBy(Buckets(xs, key), key)
  {
    var a, b, c := Bucket(xs, key, 0), Bucket(xs, key, 1), Bucket(xs, key, 2);
    BucketMembers(xs, key, 0);
    BucketMembers(xs, key, 1);
    BucketMembers(xs, key, 2);
    var r := a + b + c;
    forall i, j | 0 <= i < j < |r| ensures Score(key, r[i]) <= Score(key, r[j]) {
      if i < |a| {
        assert r[i] == a[i] && r[i] in a;
      } else if i < |a| + |b| {
        assert r[i] == b[i - |a|] && r[i] in b;
        if j < |a| + |b| {
          assert r[j] == b[j - |a|] && r[j] in b;
        } else {
          assert r[j] == c[j - |a| - |b|] && r[j] in c;
        }
      } else {
        assert r[i] == c[i - |a| - |b|] && r[i] in c;
        assert r[j] == c[j - |a| - |b|] && r[j] in c;
      }
    }
  }

  /** One step of a bucket: the head, if it has the key, then the bucket of the tail. */
  lemma BucketUnfold(xs: seq<Item>, key: Key, k: nat)
    requires |xs| > 0
    ensures Bucket(xs, key, k) == (if Score(key, xs[0]) == k then [xs[0]] else []) + Bucket(xs[1..], key, k)
  {
  }

  /** A bucket holds each item of its key as often as the input does, and no other item. */
  lemma {:induction false} BucketCount(xs: seq<Item>, key: Key, k: nat, y: Item)
    ensures multiset(Bucket(xs, key, k))[y] == if Score(key, y) == k then multiset(xs)[y] else 0
  {
    if |xs| > 0 {
      BucketUnfold(xs, key, k);
      BucketCount(xs[1..], key, k, y);
      assert xs == [xs[0]] + xs[1..];
    }
  }

  /** The stable sort is a permutation of its input when every key is at most 2. */
  lemma BucketsPermutation(xs: seq<Item>, key: Key)
    requires forall x :: x in xs ==> Score(key, x) <= 2
    ensures multiset(Buckets(xs, key)) == multiset(xs)
  {
    forall y ensures multiset(Buckets(xs, key))[y] == multiset(xs)[y] {
      BucketCount(xs, key, 0, y);
      BucketCount(xs, key, 1, y);
      BucketCount(xs, key, 2, y);
      if multiset(xs)[y] > 0 {
        assert y in xs;
      }
    }
  }

  lemma {:induction false} BucketConcat(a: seq<Item>, b: seq<Item>, key: Key, k: nat)
    ensures Bucket(a + b, key, k) == Bucket(a, key, k) + Bucket(b, key, k)
  {
    if |a| > 0 {
      assert (a + b)[1..] == a[1..] + b;
      BucketUnfold(a + b, key, k);
      BucketUnfold(a, key, k);
      BucketConcat(a[1..], b, key, k);
    } else {
      assert a + b == b;
    }
  }

  lemma {:induction false} BucketOfBucket(xs: seq<Item>, key: Key, j: nat, k: nat)
    ensures Bucket(Bucket(xs, key, j), key, k) == if j == k then Bucket(xs, key, k) else []
  {
    if |xs| > 0 {
      var h, t := xs[0], xs[1..];
      BucketOfBucket(t, key, j, k);
      BucketUnfold(xs, key, j);
      BucketUnfold(xs, key, k);
      if Score(key, h) == j {
        var bt := Bucket(t, key, j);
        assert Bucket(xs, key, j) == [h] + bt;
        assert ([h] + bt)[0] == h && ([h] + bt)[1..] == bt;
        BucketUnfold([h] + bt, key, k);
        if j == k {
          assert Bucket([h] + bt, key, k) == [h] + Bucket(bt, key, k);
          assert Bucket(bt, key, k) == Bucket(t, key, k);
          assert Bucket(xs, key, k) == [h] + Bucket(t, key, k);
        } else {
          assert Bucket([h] + bt, key, k) == [] + Bucket(bt, key, k);
          assert Bucket(bt, key, k) == [];
        }
      } else {
        assert Bucket(xs, key, j) == [] + Bucket(t, key, j) == Bucket(t, key, j);
        assert j == k ==> Bucket(xs, key, k) == [] + Bucket(t, key, k) == Bucket(t, key, k);
      }
    }
  }

  /**
   * The stable sort is stable: the items of any one key appear in the output
   * in the order they had in the input.
   */
  lemma BucketsStable(xs: seq<Item>, key: Key, k: nat)
    requires k <= 2
    ensures Bucket(Buckets(xs, key), key, k) == Bucket(xs, key, k)
  {
    var a, b, c := Bucket(xs, key, 0), Bucket(xs, key, 1), Bucket(xs, key, 2);
    BucketConcat(a + b, c, key, k);
    BucketConcat(a, b, key, k);
    BucketOfBucket(xs, key, 0, k);
    BucketOfBucket(xs, key, 1, k);
    BucketOfBucket(xs, key, 2, k);
    OnlyOne(Bucket(a, key, k), Bucket(b, key, k), Bucket(c, key, k), Bucket(xs, key, k), k);
  }

  /** Three runs of which only run `k` may be non-empty join to that run. */
  lemma OnlyOne(p0: seq<Item>, p1: seq<Item>, p2: seq<Item>, v: seq<Item>, k: nat)
    requires k <= 2
    requires p0 == (if k == 0 then v else []) && p1 == (if k == 1 then v else []) && p2 == (if k == 2 then v else [])
    ensures p0 + p1 + p2 == v
  {
    if k == 0 {
      assert p0 + p1 + p2 == v + [] + [];
    } else if k == 1 {
      assert p0 + p1 + p2 == [] + v + [];
    } else {
      assert p0 + p1 + p2 == [] + [] + v;
    }
  }

  lemma {:induction false} BucketNone(xs: seq<Item>, key: Key, k: nat)
    requires forall x :: x in xs ==> Score(key, x) != k
    ensures Bucket(xs, key, k) == []
  {
    if |xs| > 0 {
      assert xs[0] in xs;
      BucketNone(xs[1..], key, k);
    }
  }

  /** A list already ordered by the key is left as it is. */
  lemma {:induction false} BucketsOfSorted(xs: seq<Item>, key: Key)
    requires forall x :: x in xs ==> Score(key, x) <= 2
    requires SortedBy(xs, key)
    ensures Buckets(xs, key) == xs
  {
    if |xs| > 0 {
      var x, rest := xs[0], xs[1..];
      assert x in xs;
      assert forall y :: y in rest ==> y in xs;
      SortedTail(xs, key);
      BucketsOfSorted(rest, key);
      assert xs == [x] + rest;
      SortedHead(x, rest, key, Score(key, x));
    }
  }

  /** Putting an item ahead of a list whose keys are not smaller keeps the sort's output in step. */
  lemma SortedHead(x: Item, rest: seq<Item>, key: Key, s: nat)
    requires s == Score(key, x) <= 2
    requires forall y :: y in rest ==> s <= Score(key, y)
    requires Buckets(rest, key) == rest
    ensures Buckets([x] + rest, key) == [x] + rest
  {
    if s >= 1 {
      BucketNone(rest, key, 0);
    }
    if s == 2 {
      BucketNone(rest, key, 1);
    }
    ConsBucket(x, rest, key, 0);
    ConsBucket(x, rest, key, 1);
    ConsBucket(x, rest, key, 2);
    JoinHead(x, s, Bucket(rest, key, 0), Bucket(rest, key, 1), Bucket(rest, key, 2),
             Bucket([x] + rest, key, 0), Bucket([x] + rest, key, 1), Bucket([x] + rest, key, 2));
  }

  /**
   * Three runs with `x` put in front of run `s`, when the runs before `s` are
   * empty: their concatenation is `x` in front of the three runs.
   */
  lemma JoinHead(x: Item, s: nat, r0: seq<Item>, r1: seq<Item>, r2: seq<Item>, b0: seq<Item>, b1: seq<Item>, b2: seq<Item>)
    requires s <= 2
    requires b0 == if s == 0 then [x] + r0 else r0
    requires b1 == if s == 1 then [x] + r1 else r1
    requires b2 == if s == 2 then [x] + r2 else r2
    requires s >= 1 ==> r0 == []
    requires s == 2 ==> r1 == []
    ensures b0 + b1 + b2 == [x] + (r0 + r1 + r2)
  {
    if s == 1 {
      assert b0 + b1 + b2 == [x] + (r1 + r2);
    } else if s == 2 {
      assert b0 + b1 + b2 == [x] + r2;
    }
  }

  /** The bucket of a list with `x` in front: `x` joins the bucket of its own key only. */
  lemma ConsBucket(x: Item, rest: seq<Item>, key: Key, k: nat)
    ensures Bucket([x] + rest, key, k) == if Score(key, x) == k then [x] + Bucket(rest, key, k) else Bucket(rest, key, k)
  {
    var xs := [x] + rest;
    assert xs[0] == x && xs[1..] == rest;
    BucketUnfold(xs, key, k);
  }

  /** The tail of an ordered list is ordered, and its head's key is the smallest. */
  lemma SortedTail(xs: seq<Item>, key: Key)
    requires |xs| > 0 && SortedBy(xs, key)
    ensures SortedBy(xs[1..], key)
    ensures forall y :: y in xs[1..] ==> Score(key, xs[0]) <= Score(key, y)
  {
    var rest := xs[1..];
    forall i, j | 0 <= i < j < |rest| ensures Score(key, rest[i]) <= Score(key, rest[j]) {
      assert rest[i] == xs[i + 1] && rest[j] == xs[j + 1];
    }
    forall y | y in rest ensures Score(key, xs[0]) <= Score(key, y) {
      var j :| 0 <= j < |rest| && rest[j] == y;
      assert xs[j + 1] == y;
    }
  }

  // ---------------------------------------------------------------- the passes against the reference

  /** The items one pass would add to the results held in `seen`, in table order. */
  function Keep(items: seq<Item>, q: string, mode: Mode, seen: set<int>): seq<Item>
  {
    if |items| == 0 then []
    else
      (if Adds(mode, items[0], q, seen) then [items[0]] else [])
      + Keep(items[1..], q, mode, seen)
  }

  lemma {:induction false} KeepIgnoresId(items: seq<Item>, q: string, mode: Mode, seen: set<int>, id: int)
    requires id !in IdsOf(items)
    ensures Keep(items, q, mode, seen + {id}) == Keep(items, q, mode, seen)
  {
    if |items| > 0 {
      IdsCons(items);
      KeepIgnoresId(items[1..], q, mode, seen, id);
    }
  }

  /** The number of items a pass may still add: at least one, as the check follows the insertion. */
  function Room(acc: seq<Item>, limit: int): nat
  {
    if limit - |acc| >= 1 then limit - |acc| else 1
  }

  /**
   * A pass over a table with distinct ids appends the first items it would
   * keep, up to the limit; when the results already reach the limit it
   * still appends one.
   */
  lemma {:induction false} PassIsTake(items: seq<Item>, q: string, mode: Mode, acc: seq<Item>, limit: int)
    requires DistinctIds(items)
    ensures Pass(items, q, mode, acc, limit) == acc + Take(Keep(items, q, mode, IdsOf(acc)), Room(acc, limit))
    decreases |items|, 2
  {
    if |items| > 0 {
      if Adds(mode, items[0], q, IdsOf(acc)) {
        PassAdds(items, q, mode, acc, limit);
      } else {
        DistinctTail(items);
        PassIsTake(items[1..], q, mode, acc, limit);
        assert Keep(items, q, mode, IdsOf(acc)) == Keep(items[1..], q, mode, IdsOf(acc));
      }
    }
  }

  /** The step of `PassIsTake` where the pass adds the table's first item. */
  lemma {:induction false} PassAdds(items: seq<Item>, q: string, mode: Mode, acc: seq<Item>, limit: int)
    requires DistinctIds(items) && |items| > 0 && Adds(mode, items[0], q, IdsOf(acc))
    ensures Pass(items, q, mode, acc, limit) == acc + Take(Keep(items, q, mode, IdsOf(acc)), Room(acc, limit))
    decreases |items|, 1
  {
    var x := items[0];
    var rest := Keep(items[1..], q, mode, IdsOf(acc));
    assert Keep(items, q, mode, IdsOf(acc)) == [x] + rest;
    if |acc| + 1 >= limit {
      assert Pass(items, q, mode, acc, limit) == acc + [x];
      assert Take([x] + rest, Room(acc, limit)) == [x];
    } else {
      PassAddsMore(items, q, mode, acc, limit);
    }
  }

  /** `PassAdds` when the limit leaves room after the first item: the pass goes on with it held. */
  lemma {:induction false} PassAddsMore(items: seq<Item>, q: string, mode: Mode, acc: seq<Item>, limit: int)
    requires DistinctIds(items) && |items| > 0 && Adds(mode, items[0], q, IdsOf(acc))
    requires |acc| + 1 < limit
    ensures Pass(items, q, mode, acc, limit) == acc + Take(Keep(items, q, mode, IdsOf(acc)), Room(acc, limit))
    decreases |items|, 0
  {
    var x := items[0];
    var rest := Keep(items[1..], q, mode, IdsOf(acc));
    var grown := acc + [x];
    var n := Room(acc, limit);
    assert Keep(items, q, mode, IdsOf(acc)) == [x] + rest;
    assert Pass(items, q, mode, acc, limit) == Pass(items[1..], q, mode, grown, limit);
    DistinctTail(items);
    PassIsTake(items[1..], q, mode, grown, limit);
    KeepAfterAdd(items, q, mode, acc);
    assert Room(grown, limit) == n - 1;
    SnocTake(acc, x, rest, n);
  }

  /** Once the table's first item is held, the rest of a table with distinct ids keeps the same items. */
  lemma KeepAfterAdd(items: seq<Item>, q: string, mode: Mode, acc: seq<Item>)
    requires DistinctIds(items) && |items| > 0
    ensures Keep(items[1..], q, mode, IdsOf(acc + [items[0]])) == Keep(items[1..], q, mode, IdsOf(acc))
  {
    DistinctHead(items);
    IdsSnoc(acc, items[0]);
    KeepIgnoresId(items[1..], q, mode, IdsOf(acc), items[0].id);
  }

  /** Taking `n` from `x` in front of `rest` after `acc` is taking `n - 1` from `rest` after `acc` and `x`. */
  lemma SnocTake(acc: seq<Item>, x: Item, rest: seq<Item>, n: nat)
    requires n >= 1
    ensures acc + Take([x] + rest, n) == (acc + [x]) + Take(rest, n - 1)
  {
    TakeCons(x, rest, n);
  }

  lemma TakeCons(x: Item, rest: seq<Item>, n: nat)
    requires n >= 1
    ensures Take([x] + rest, n) == [x] + Take(rest, n - 1)
  {
  }

  /**
   * A pass keeps exactly the items of its own rank when the results so far
   * hold exactly the items of lower rank.
   */
  lemma {:induction false} KeepIsRank(items: seq<Item>, q: string, mode: Mode, seen: set<int>)
    requires mode != Exact ==> forall x :: x in items ==> (x.id in seen <==> Rank(x, q) < Level(mode))
    ensures Keep(items, q, mode, seen) == Bucket(items, RankFor(q), Level(mode))
  {
    if |items| > 0 {
      MatchesIsRank(mode, items[0], q);
      assert items[0] in items;
      assert forall y :: y in items[1..] ==> y in items;
      KeepIsRank(items[1..], q, mode, seen);
    }
  }

  /** Over a table with distinct ids, the ids in a bucket union are those of its items' ranks. */
  lemma SeenIsLowerRank(items: seq<Item>, q: string, held: seq<Item>, level: nat)
    requires DistinctIds(items)
    requires forall y :: y in held <==> y in items && Rank(y, q) < level
    ensures forall x :: x in items ==> (x.id in IdsOf(held) <==> Rank(x, q) < level)
  {
    forall x | x in items ensures x.id in IdsOf(held) <==> Rank(x, q) < level {
      if x.id in IdsOf(held) {
        var y :| y in held && y.id == x.id;
        SameId(items, x, y);
      }
    }
  }

  /** The exact pass keeps the exact matches in table order, cut at the limit (and at one if the limit is not positive). */
  lemma ExactPass(items: seq<Item>, q: string, limit: int)
    requires DistinctIds(items)
    ensures Pass(items, q, Exact, [], limit) == Take(Bucket(items, RankFor(q), 0), Room([], limit))
  {
    var none: seq<Item> := [];
    assert IdsOf(none) == {};
    PassIsTake(items, q, Exact, none, limit);
    KeepIsRank(items, q, Exact, {});
  }

  /** A later pass, run on results holding exactly the better-ranked items, appends its own rank's items up to the limit. */
  lemma LaterPass(items: seq<Item>, q: string, mode: Mode, held: seq<Item>, limit: int)
    requires DistinctIds(items) && mode != Exact && |held| < limit
    requires forall y :: y in held <==> y in items && Rank(y, q) < Level(mode)
    ensures Pass(items, q, mode, held, limit) == held + Take(Bucket(items, RankFor(q), Level(mode)), limit - |held|)
  {
    PassIsTake(items, q, mode, held, limit);
    SeenIsLowerRank(items, q, held, Level(mode));
    KeepIsRank(items, q, mode, IdsOf(held));
  }

  /** Three passes that each take from their own list while room is left take from the three lists joined. */
  lemma Combine(b0: seq<Item>, b1: seq<Item>, b2: seq<Item>, r1: seq<Item>, r2: seq<Item>, r3: seq<Item>, limit: nat)
    requires r1 == Take(b0, limit)
    requires r2 == if |r1| < limit then b0 + Take(b1, limit - |b0|) else r1
    requires r3 == if |r2| < limit then b0 + b1 + Take(b2, limit - |b0| - |b1|) else r2
    ensures r3 == Take(b0 + b1 + b2, limit)
  {
    if |b0| >= limit {
      assert (b0 + b1 + b2)[..limit] == b0[..limit];
    } else if |b0| + |b1| >= limit {
      assert (b0 + b1 + b2)[..limit] == b0 + b1[..limit - |b0|];
    }
  }

  /**
   * `search_items` returns the first `limit` items of the reference order:
   * every exact match in table order, then every prefix match, then every
   * other substring match, cut at `limit`.
   */
  lemma SearchMatchesRanked(t: Table, query: string, limit: int)
    requires Valid(t) && !Blank(query) && limit >= 1
    ensures SearchItems(t, query, limit) == Take(Ranked(t.byId, Normalize(query)), limit)
  {
    PassesMatchRanked(t.byId, Normalize(query), limit);
  }

  /** The three passes over a table with distinct ids take the first `limit` items of the reference order. */
  lemma PassesMatchRanked(items: seq<Item>, q: string, limit: int)
    requires DistinctIds(items) && limit >= 1
    ensures Passes(items, q, limit) == Take(Ranked(items, q), limit)
  {
    var key := RankFor(q);
    var b0, b1, b2 := Bucket(items, key, 0), Bucket(items, key, 1), Bucket(items, key, 2);
    var r1 := Pass(items, q, Exact, [], limit);
    var r2 := if |r1| < limit then Pass(items, q, Prefix, r1, limit) else r1;
    var r3 := if |r2| < limit then Pass(items, q, Infix, r2, limit) else r2;
    assert Passes(items, q, limit) == r3;
    ExactPass(items, q, limit);
    if |r1| < limit {
      BucketMembers(items, key, 0);
      LaterPass(items, q, Prefix, b0, limit);
      if |r2| < limit {
        BucketMembers(items, key, 1);
        LaterPass(items, q, Infix, b0 + b1, limit);
      }
    }
    Combine(b0, b1, b2, r1, r2, r3, limit);
  }

  /**
   * The reference order holds every item whose lower-cased name contains the
   * query and nothing else, once each, exact matches before prefix matches
   * before the rest.
   */
  lemma RankedProperties(items: seq<Item>, q: string)
    requires DistinctIds(items)
    ensures forall x :: x in Ranked(items, q) <==> x in items && Contains(Lower(x.name), q)
    ensures DistinctIds(Ranked(items, q))
    ensures SortedBy(Ranked(items, q), RankFor(q))
  {
    forall x: Item ensures Contains(Lower(x.name), q) <==> Rank(x, q) <= 2 {
      MatchesIsRank(Infix, x, q);
    }
    BucketMembers(items, RankFor(q), 0);
    BucketMembers(items, RankFor(q), 1);
    BucketMembers(items, RankFor(q), 2);
    BucketsDistinct(items, RankFor(q));
    BucketsSorted(items, RankFor(q));
  }

  /**
   * What `search_items` promises for a positive limit: at most `limit`
   * items, each once, each in the table with the query in its lower-cased
   * name, exact matches first and prefix matches next; and when fewer than
   * `limit` come back, every such item did.
   */
  lemma SearchProperties(t: Table, query: string, limit: int)
    requires Valid(t) && !Blank(query) && limit >= 1
    ensures |SearchItems(t, query, limit)| <= limit
    ensures DistinctIds(SearchItems(t, query, limit))
    ensures forall x :: x in SearchItems(t, query, limit) ==>
              x in t.byId && Contains(Lower(x.name), Normalize(query))
    ensures SortedBy(SearchItems(t, query, limit), RankFor(Normalize(query)))
    ensures |SearchItems(t, query, limit)| < limit ==>
              forall x :: x in t.byId && Contains(Lower(x.name), Normalize(query)) ==> x in SearchItems(t, query, limit)
  {
    var q := Normalize(query);
    var all := Ranked(t.byId, q);
    var r := SearchItems(t, query, limit);
    SearchMatchesRanked(t, query, limit);
    RankedProperties(t.byId, q);
    assert forall i :: 0 <= i < |r| ==> r[i] == all[i];
    assert forall x :: x in r ==> x in all;
  }

  // ---------------------------------------------------------------- the limit finding

  /** As written, a limit of zero or less returns the first exact match, if there is one. */
  lemma SearchNonPositiveLimit(t: Table, query: string, limit: int)
    requires Valid(t) && !Blank(query) && limit <= 0
    ensures SearchItems(t, query, limit) == Take(Bucket(t.byId, RankFor(Normalize(query)), 0), 1)
  {
    ExactPass(t.byId, Normalize(query), limit);
  }

  /** A table holding only "Coal": searching "coal" with limit 0 returns it. */
  lemma ZeroLimitReturnsAnItem()
    ensures var coal := Item(453, "Coal", true, false, false, true, false, false, false, 4, 18, 27);
            SearchItems(Table([coal], map["coal" := coal]), "coal", 0) == [coal]
  {
    var coal := Item(453, "Coal", true, false, false, true, false, false, false, 4, 18, 27);
    var t := Table([coal], map["coal" := coal]);
    CoalQuery();
    assert Valid(t);
    SearchNonPositiveLimit(t, "coal", 0);
    BucketUnfold([coal], RankFor("coal"), 0);
    assert [coal][1..] == [];
  }

  lemma CoalQuery()
    ensures Lower("Coal") == "coal" && Normalize("coal") == "coal" && !Blank("coal")
  {
    CoalLower();
    CoalStrip();
  }

  lemma CoalLower()
    ensures Lower("Coal") == "coal" && Lower("coal") == "coal"
  {
    assert Lower("Coal") == "coal";
    assert Lower("coal") == "coal";
  }

  lemma CoalStrip()
    ensures Strip("coal") == "coal"
  {
    assert TrimLeft("coal") == "coal";
    assert TrimRight("coal") == "coal";
  }

  /** With the limit honoured, the search is the reference order cut at the limit, for every limit. */
  lemma BoundedMatchesRanked(t: Table, query: string, limit: int)
    requires Valid(t) && !Blank(query)
    ensures SearchItemsBounded(t, query, limit) == Take(Ranked(t.byId, Normalize(query)), if limit > 0 then limit else 0)
  {
    if limit > 0 {
      SearchMatchesRanked(t, query, limit);
    }
  }

  // ---------------------------------------------------------------- search_items_advanced

  /** The attributes of an item a filter can name; other names are not attributes here. */
  function Attr(x: Item, key: string): Option<Value>
  {
    if key == "id" then Some(VInt(x.id))
    else if key == "name" then Some(VStr(x.name))
    else if key == "tradeable_on_ge" then Some(VBool(x.tradeableOnGe))
    else if key == "members" then Some(VBool(x.members))
    else if key == "noted" then Some(VBool(x.noted))
    else if key == "noteable" then Some(VBool(x.noteable))
    else if key == "placeholder" then Some(VBool(x.placeholder))
    else if key == "stackable" then Some(VBool(x.stackable))
    else if key == "equipable" then Some(VBool(x.equipable))
    else if key == "cost" then Some(VInt(x.cost))
    else if key == "lowalch" then Some(VInt(x.lowalch))
    else if key == "highalch" then Some(VInt(x.highalch))
    else None
  }

  /** An item passes the filters when every filter naming one of its attributes holds a value equal to it. */
  predicate PassesFilters(x: Item, filters: seq<(string, Value)>)
  {
    forall i :: 0 <= i < |filters| ==>
      (Attr(x, filters[i].0).Some? ==> PyEq(Attr(x, filters[i].0).value, filters[i].1))
  }

  function ApplyFilters(xs: seq<Item>, filters: seq<(string, Value)>): (r: seq<Item>)
    ensures forall x :: x in r <==> x in xs && PassesFilters(x, filters)
  {
    if |xs| == 0 then []
    else
      assert forall x :: x in xs <==> x == xs[0] || x in xs[1..];
      (if PassesFilters(xs[0], filters) then [xs[0]] else []) + ApplyFilters(xs[1..], filters)
  }

  /** The positions in `xs` of the items that pass the filters, in increasing order. */
  function PassingPositions(xs: seq<Item>, filters: seq<(string, Value)>): seq<nat>
    decreases |xs|
  {
    if |xs| == 0 then []
    else (if PassesFilters(xs[0], filters) then [0] else []) + Shifted(PassingPositions(xs[1..], filters))
  }

  function Shifted(s: seq<nat>): (r: seq<nat>)
    ensures |r| == |s| && forall i :: 0 <= i < |s| ==> r[i] == s[i] + 1
  {
    seq(|s|, i requires 0 <= i < |s| => s[i] + 1)
  }

  /**
   * The filter keeps the input order: the result is the input read at a
   * strictly increasing list of positions, and those positions are exactly
   * the ones whose item passes the filters.
   */
  lemma {:induction false} ApplyFiltersKeepsOrder(xs: seq<Item>, filters: seq<(string, Value)>)
    ensures var r, idx := ApplyFilters(xs, filters), PassingPositions(xs, filters);
            |idx| == |r|
            && (forall k :: 0 <= k < |idx| ==> idx[k] < |xs| && r[k] == xs[idx[k]])
            && (forall k, l :: 0 <= k < l < |idx| ==> idx[k] < idx[l])
            && (forall j :: 0 <= j < |xs| ==> (j in idx <==> PassesFilters(xs[j], filters)))
    decreases |xs|
  {
    if |xs| > 0 {
      ApplyFiltersKeepsOrder(xs[1..], filters);
      var pass := PassesFilters(xs[0], filters);
      assert ApplyFilters(xs, filters) == (if pass then [xs[0]] else []) + ApplyFilters(xs[1..], filters);
      assert PassingPositions(xs, filters) == (if pass then [0] else []) + Shifted(PassingPositions(xs[1..], filters));
      ConsPositions(xs, pass, ApplyFilters(xs[1..], filters), PassingPositions(xs[1..], filters));
      forall j | 0 <= j < |xs| ensures (j in PassingPositions(xs, filters) <==> PassesFilters(xs[j], filters)) {
        if j > 0 {
          assert xs[j] == xs[1..][j - 1];
        }
        ShiftedMember(PassingPositions(xs[1..], filters), j);
      }
    }
  }

  /** Putting one item in front: the positions of the rest move up by one and still index it. */
  lemma ConsPositions(xs: seq<Item>, pass: bool, tail: seq<Item>, tidx: seq<nat>)
    requires |xs| > 0 && |tidx| == |tail|
    requires forall k :: 0 <= k < |tidx| ==> tidx[k] < |xs| - 1 && tail[k] == xs[1..][tidx[k]]
    requires forall k, l :: 0 <= k < l < |tidx| ==> tidx[k] < tidx[l]
    ensures var r, idx := (if pass then [xs[0]] else []) + tail, (if pass then [0] else []) + Shifted(tidx);
            |idx| == |r|
            && (forall k :: 0 <= k < |idx| ==> idx[k] < |xs| && r[k] == xs[idx[k]])
            && (forall k, l :: 0 <= k < l < |idx| ==> idx[k] < idx[l])
  {
  }

  /** A position is among the shifted ones exactly when the one before it was among the originals. */
  lemma ShiftedMember(s: seq<nat>, j: nat)
    ensures j in Shifted(s) <==> j >= 1 && j - 1 in s
  {
    if j >= 1 && j - 1 in s {
      var k :| 0 <= k < |s| && s[k] == j - 1;
      assert Shifted(s)[k] == j;
    }
  }

  /** The relevance score: 0 the name is the query, 1 it starts with it, 2 otherwise. */
  function Relevance(x: Item, ql: string): nat
  {
    var n := Lower(x.name);
    if n == ql then 0 else if StartsWith(n, ql) then 1 else 2
  }

  /** `results.sort(key=relevance)`: Python's sort is stable. */
  function SortByRelevance(xs: seq<Item>, ql: string): seq<Item>
  {
    Buckets(xs, RelevanceFor(ql))
  }

  /** `xs[:n]`: a negative `n` drops that many items from the end. */
  function PySlice(xs: seq<Item>, n: int): (r: seq<Item>)
    ensures |r| <= |xs| && r == xs[..|r|]
    ensures n >= 0 ==> |r| == if n < |xs| then n else |xs|
    ensures n < 0 ==> |r| == if |xs| + n > 0 then |xs| + n else 0
  {
    if n >= 0 then (if n < |xs| then xs[..n] else xs)
    else if |xs| + n > 0 then xs[..|xs| + n] else []
  }

  /** The steps after the base search: filter, order by relevance to the lower-cased query, cut. */
  function Refine(base: seq<Item>, query: string, filters: seq<(string, Value)>, limit: int): seq<Item>
  {
    PySlice(SortByRelevance(ApplyFilters(base, filters), Lower(query)), limit)
  }

  /**
   * `search_items_advanced`: a blank query finds nothing; otherwise twice
   * `limit` items are searched for, filtered, ordered by relevance and cut
   * to `limit`.
   */
  function SearchItemsAdvanced(t: Table, query: string, filters: seq<(string, Value)>, limit: int): (r: seq<Item>)
    ensures Blank(query) ==> r == []
    ensures |r| <= if limit > 0 then limit else 0
  {
    if Blank(query) then []
    else Refine(SearchItemsBounded(t, query, limit * 2), query, filters, limit)
  }

  /**
   * The relevance order is a stable permutation: the same items, ordered by
   * score, items of equal score in their original order.
   */
  lemma SortByRelevanceIsStableSort(xs: seq<Item>, ql: string)
    ensures multiset(SortByRelevance(xs, ql)) == multiset(xs)
    ensures SortedBy(SortByRelevance(xs, ql), RelevanceFor(ql))
    ensures forall k :: 0 <= k <= 2 ==>
              Bucket(SortByRelevance(xs, ql), RelevanceFor(ql), k) == Bucket(xs, RelevanceFor(ql), k)
  {
    BucketsPermutation(xs, RelevanceFor(ql));
    BucketsSorted(xs, RelevanceFor(ql));
    forall k | 0 <= k <= 2
      ensures Bucket(SortByRelevance(xs, ql), RelevanceFor(ql), k) == Bucket(xs, RelevanceFor(ql), k)
    {
      BucketsStable(xs, RelevanceFor(ql), k);
    }
  }

  /** A prefix of a list holds only its items, and is ordered when the list is. */
  lemma PrefixKeeps(xs: seq<Item>, r: seq<Item>, key: Key)
    requires |r| <= |xs| && r == xs[..|r|]
    ensures forall x :: x in r ==> x in xs
    ensures SortedBy(xs, key) ==> SortedBy(r, key)
  {
    assert forall i :: 0 <= i < |r| ==> r[i] == xs[i];
  }

  /** The sort's output holds only items of its input. */
  lemma BucketsMembers(xs: seq<Item>, key: Key)
    ensures forall x :: x in Buckets(xs, key) ==> x in xs
  {
    BucketMembers(xs, key, 0);
    BucketMembers(xs, key, 1);
    BucketMembers(xs, key, 2);
  }

  /**
   * Every result of the advanced search passes the filters and came from the
   * base search, and the results are ordered by relevance.  When fewer than
   * `limit` come back, nothing was cut: every base item that passes the
   * filters is among them.
   */
  lemma AdvancedProperties(t: Table, query: string, filters: seq<(string, Value)>, limit: int)
    ensures forall x :: x in SearchItemsAdvanced(t, query, filters, limit) ==>
              PassesFilters(x, filters) && x in SearchItemsBounded(t, query, limit * 2)
    ensures SortedBy(SearchItemsAdvanced(t, query, filters, limit), RelevanceFor(Lower(query)))
    ensures |SearchItemsAdvanced(t, query, filters, limit)| < limit ==>
              forall x :: x in SearchItemsBounded(t, query, limit * 2) && PassesFilters(x, filters) ==>
                x in SearchItemsAdvanced(t, query, filters, limit)
  {
    if !Blank(query) {
      var key := RelevanceFor(Lower(query));
      var kept := ApplyFilters(SearchItemsBounded(t, query, limit * 2), filters);
      var sorted := Buckets(kept, key);
      BucketsSorted(kept, key);
      BucketsMembers(kept, key);
      PrefixKeeps(sorted, PySlice(sorted, limit), key);
      if |PySlice(sorted, limit)| < limit {
        BucketsPermutation(kept, key);
        assert PySlice(sorted, limit) == sorted;
        forall x | x in kept ensures x in sorted {
          assert x in multiset(kept);
        }
      }
    }
  }

  /** For items that contain the query, the relevance score is the rank. */
  lemma RelevanceIsRank(xs: seq<Item>, q: string)
    requires forall x :: x in xs ==> Rank(x, q) <= 2
    requires SortedBy(xs, RankFor(q))
    ensures forall x :: x in xs ==> Score(RelevanceFor(q), x) <= 2
    ensures SortedBy(xs, RelevanceFor(q))
  {
    assert forall x :: x in xs ==> Relevance(x, q) == Rank(x, q);
    forall i, j | 0 <= i < j < |xs| ensures Score(RelevanceFor(q), xs[i]) <= Score(RelevanceFor(q), xs[j]) {
      assert xs[i] in xs && xs[j] in xs;
    }
  }

  /**
   * With no filters, a query already lower-case and stripped, and a positive
   * limit, the advanced search returns the same items in the same order as
   * the basic search with that limit.
   */
  lemma AdvancedWithoutFilters(t: Table, query: string, limit: int)
    requires Valid(t) && !Blank(query) && limit >= 1
    requires Lower(query) == query && Strip(query) == query
    ensures SearchItemsAdvanced(t, query, [], limit) == SearchItems(t, query, limit)
  {
    var all := Ranked(t.byId, query);
    var base := SearchItemsBounded(t, query, limit * 2);
    assert Normalize(query) == query;
    SearchMatchesRanked(t, query, limit * 2);
    SearchMatchesRanked(t, query, limit);
    assert base == Take(all, limit * 2);
    RankedProperties(t.byId, query);
    PrefixKeeps(all, base, RankFor(query));
    forall x | x in base ensures Rank(x, query) <= 2 {
      MatchesIsRank(Infix, x, query);
    }
    RelevanceIsRank(base, query);
    ApplyFiltersNone(base);
    BucketsOfSorted(base, RelevanceFor(query));
    assert SearchItemsAdvanced(t, query, [], limit) == PySlice(base, limit);
    SliceOfTake(all, limit * 2, limit);
  }

  lemma SliceOfTake(s: seq<Item>, m: nat, n: nat)
    requires n <= m
    ensures PySlice(Take(s, m), n) == Take(s, n)
  {
  }

  lemma {:induction false} ApplyFiltersNone(xs: seq<Item>)
    ensures ApplyFilters(xs, []) == xs
  {
    if |xs| > 0 {
      ApplyFiltersNone(xs[1..]);
      assert xs == [xs[0]] + xs[1..];
    }
  }

  /**
   * The limit finding does not reach the advanced search: run on the
   * as-written base search it returns the same results, because a limit of
   * zero or less cuts away the one item that search can return.
   */
  lemma AdvancedUnaffectedByLimit(t: Table, query: string, filters: seq<(string, Value)>, limit: int)
    ensures Refine(SearchItems(t, query, limit * 2), query, filters, limit)
            == SearchItemsAdvanced(t, query, filters, limit)
  {
    if Blank(query) {
      RefineEmpty(query, filters, limit);
    } else if limit <= 0 {
      assert SearchItemsBounded(t, query, limit * 2) == [];
      RefineNothing(SearchItems(t, query, limit * 2), query, filters, limit);
      RefineNothing([], query, filters, limit);
    }
  }

  /** Refining an empty base keeps nothing. */
  lemma RefineEmpty(query: string, filters: seq<(string, Value)>, limit: int)
    ensures Refine([], query, filters, limit) == []
  {
    assert ApplyFilters([], filters) == [];
    assert Bucket([], RelevanceFor(Lower(query)), 0) == [];
    assert Bucket([], RelevanceFor(Lower(query)), 1) == [];
    assert Bucket([], RelevanceFor(Lower(query)), 2) == [];
  }

  /** With a limit of zero or less, refining a base of at most one item keeps nothing. */
  lemma RefineNothing(base: seq<Item>, query: string, filters: seq<(string, Value)>, limit: int)
    requires |base| <= 1 && limit <= 0
    ensures Refine(base, query, filters, limit) == []
  {
    var kept := ApplyFilters(base, filters);
    ApplyFiltersLength(base, filters);
    BucketsPermutation(kept, RelevanceFor(Lower(query)));
    assert |multiset(SortByRelevance(kept, Lower(query)))| == |multiset(kept)|;
  }

  lemma {:induction false} ApplyFiltersLength(xs: seq<Item>, filters: seq<(string, Value)>)
    ensures |ApplyFilters(xs, filters)| <= |xs|
  {
    if |xs| > 0 {
      ApplyFiltersLength(xs[1..], filters);
    }
  }
}
