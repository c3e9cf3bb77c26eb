/**
 * Javadoc block tags, their comparison and the stable sort that orders
 * them (Kotlin's `sorted()` over `Comparable<Tag>`).
 */
module Tags {

  /** A block tag `@name value`, ranked by `order`. */
  datatype Tag = Tag(name: string, value: string, order: int)

  /** The rank of each kind of tag the Javadoc builder can add. */
  const AuthorOrder: int := 1
  const VersionOrder: int := 2
  const ParamOrder: int := 3
  const ReturnOrder: int := 4
  const ThrowsOrder: int := 5
  const SeeOrder: int := 6
  const SinceOrder: int := 7
  const DeprecatedOrder: int := 9
  const CustomOrder: int := 10

  /**
   * `Tag.compareTo`: looks at `order` only, as Kotlin's `Int.compareTo`
   * does, and never at the name or the value.
   */
  function CompareTo(a: Tag, b: Tag): (r: int)
    ensures -1 <= r <= 1
    ensures r < 0 <==> a.order < b.order
    ensures r == 0 <==> a.order == b.order
    ensures r > 0 <==> a.order > b.order
  {
    if a.order < b.order then -1 else if a.order > b.order then 1 else 0
  }

  /** Ranks never decrease from left to right. */
  ghost predicate SortedByOrder(s: seq<Tag>) {
    forall i, j :: 0 <= i < j < |s| ==> s[i].order <= s[j].order
  }

  /** The tags of rank `k`, in the order they appear in `s`. */
  function WithOrder(s: seq<Tag>, k: int): (r: seq<Tag>)
  {
    if s == [] then []
    else if s[0].order == k then [s[0]] + WithOrder(s[1..], k)
    else WithOrder(s[1..], k)
  }

  /**
   * Inserts `t` in front of the first tag that does not compare below it,
   * so that `t` stays ahead of the tags of equal rank that follow it in the
   * input.
   */
  function Insert(t: Tag, s: seq<Tag>): (r: seq<Tag>)
    ensures |r| == |s| + 1
    ensures multiset(r) == multiset(s) + multiset{t}
    ensures |s| > 0 ==> r[0] == t || r[0] == s[0]
  {
    if s == [] || CompareTo(t, s[0]) <= 0 then [t] + s
    else
      assert s == [s[0]] + s[1..];
      [s[0]] + Insert(t, s[1..])
  }

  lemma {:induction false} InsertSorted(t: Tag, s: seq<Tag>)
    requires SortedByOrder(s)
    ensures SortedByOrder(Insert(t, s))
  {
    if s != [] && CompareTo(t, s[0]) > 0 {
      var tail := Insert(t, s[1..]);
      InsertSorted(t, s[1..]);
      var r := [s[0]] + tail;
      assert r == Insert(t, s);
      forall i, j | 0 <= i < j < |r| ensures r[i].order <= r[j].order {
        if i == 0 {
          assert tail[0].order >= s[0].order;
          assert r[j] == tail[j - 1];
          assert j - 1 == 0 || tail[0].order <= tail[j - 1].order;
        } else {
          assert r[i] == tail[i - 1] && r[j] == tail[j - 1];
        }
      }
    }
  }

  /** Kotlin's `sorted()` on a list of tags: a stable sort by `compareTo`. */
  function Sorted(s: seq<Tag>): (r: seq<Tag>)
    ensures |r| == |s|
    ensures multiset(r) == multiset(s)
    ensures SortedByOrder(r)
  {
    if s == [] then []
    else
      assert s == [s[0]] + s[1..];
      InsertSorted(s[0], Sorted(s[1..]));
      Insert(s[0], Sorted(s[1..]))
  }

  lemma {:induction false} InsertWithOrder(t: Tag, s: seq<Tag>, k: int)
    ensures WithOrder(Insert(t, s), k) == if t.order == k then [t] + WithOrder(s, k) else WithOrder(s, k)
  {
    if s == [] || CompareTo(t, s[0]) <= 0 {
      assert ([t] + s)[1..] == s;
    } else {
      var r := [s[0]] + Insert(t, s[1..]);
      assert r[1..] == Insert(t, s[1..]);
      InsertWithOrder(t, s[1..], k);
    }
  }

  /** Stability: the tags of each rank keep their input order. */
  lemma {:induction false} SortedStable(s: seq<Tag>, k: int)
    ensures WithOrder(Sorted(s), k) == WithOrder(s, k)
  {
    if s != [] {
      SortedStable(s[1..], k);
      InsertWithOrder(s[0], Sorted(s[1..]), k);
    }
  }

  lemma {:induction false} WithOrderMember(s: seq<Tag>, k: int, x: Tag)
    requires x in WithOrder(s, k)
    ensures x in s && x.order == k
  {
    if s != [] && !(s[0].order == k && x == s[0]) {
      WithOrderMember(s[1..], k, x);
    }
  }

  lemma WithOrderHead(s: seq<Tag>)
    requires s != []
    ensures WithOrder(s, s[0].order) != []
  {
  }

  lemma {:induction false} SameRanksSameOrder(a: seq<Tag>, b: seq<Tag>)
    requires SortedByOrder(a) && SortedByOrder(b)
    requires forall k :: WithOrder(a, k) == WithOrder(b, k)
    ensures a == b
  {
    if a == [] && b != [] {
      WithOrderHead(b);
      assert false;
    } else if a != [] && b == [] {
      WithOrderHead(a);
      assert false;
    } else if a != [] {
      var m, n := a[0].order, b[0].order;
      assert b[0] in WithOrder(b, n);
      WithOrderMember(a, n, b[0]);
      assert a[0] in WithOrder(a, m);
      WithOrderMember(b, m, a[0]);
      assert m == n;
      assert a[0] == WithOrder(a, m)[0] == WithOrder(b, m)[0] == b[0];
      forall k ensures WithOrder(a[1..], k) == WithOrder(b[1..], k) {
        assert WithOrder(a, k) == WithOrder(b, k);
        if m == k {
          assert WithOrder(a, k) == [a[0]] + WithOrder(a[1..], k);
          assert WithOrder(b, k) == [a[0]] + WithOrder(b[1..], k);
          assert WithOrder(a[1..], k) == WithOrder(a, k)[1..];
          assert WithOrder(b[1..], k) == WithOrder(b, k)[1..];
        }
      }
      SameRanksSameOrder(a[1..], b[1..]);
      assert a == [a[0]] + a[1..] && b == [b[0]] + b[1..];
    }
  }

  /**
   * `Sorted` is the only stable sort: any ordering of the tags that is
   * sorted by rank and keeps the input order within each rank equals it.
   */
  lemma StableSortIsUnique(s: seq<Tag>, r: seq<Tag>)
    requires SortedByOrder(r)
    requires forall k :: WithOrder(r, k) == WithOrder(s, k)
    ensures r == Sorted(s)
  {
    forall k ensures WithOrder(r, k) == WithOrder(Sorted(s), k) {
      SortedStable(s, k);
    }
    SameRanksSameOrder(r, Sorted(s));
  }
}
