/**
 * The list idioms the source relies on: comprehension filters, nested
 * `for` loops that append, and `list.sort(key=...)`.
 */
module Sequences {

  import opened Wrappers
  import opened PyNum

  /** `[x for x in s if p(x)]`. */
  function Filter<T(!new)>(s: seq<T>, p: T -> bool): (r: seq<T>)
    ensures |r| <= |s|
    ensures forall x :: x in r <==> x in s && p(x)
  {
    if s == [] then []
    else
      assert s == [s[0]] + s[1..];
      (if p(s[0]) then [s[0]] else []) + Filter(s[1..], p)
  }

  /** Each kept element occurs as often as in the input; the rest not at all. */
  lemma {:induction false} FilterMultiset<T(!new)>(s: seq<T>, p: T -> bool)
    ensures forall x :: multiset(Filter(s, p))[x] == if p(x) then multiset(s)[x] else 0
  {
    if s != [] {
      FilterMultiset(s[1..], p);
      assert s == [s[0]] + s[1..];
      assert multiset(s) == multiset{s[0]} + multiset(s[1..]);
    }
  }

  /** Nothing is dropped exactly when every element satisfies `p`. */
  lemma {:induction false} FilterKeepsAll<T(!new)>(s: seq<T>, p: T -> bool)
    ensures |Filter(s, p)| == |s| <==> forall i :: 0 <= i < |s| ==> p(s[i])
  {
    if s != [] {
      FilterKeepsAll(s[1..], p);
      assert forall i :: 1 <= i < |s| ==> s[i] == s[1..][i - 1];
    }
  }

  /** Filtering keeps the relative order: it distributes over concatenation. */
  lemma {:induction false} FilterConcat<T(!new)>(s: seq<T>, t: seq<T>, p: T -> bool)
    ensures Filter(s + t, p) == Filter(s, p) + Filter(t, p)
  {
    if s == [] {
      assert s + t == t;
    } else {
      var head := if p(s[0]) then [s[0]] else [];
      assert (s + t)[0] == s[0];
      assert (s + t)[1..] == s[1..] + t;
      calc {
        Filter(s + t, p);
        head + Filter(s[1..] + t, p);
        { FilterConcat(s[1..], t, p); }
        head + (Filter(s[1..], p) + Filter(t, p));
        (head + Filter(s[1..], p)) + Filter(t, p);
      }
    }
  }

  /** `next((i for i, x in enumerate(s) if p(x)), None)`: the first index satisfying `p`. */
  function FirstIndex<T(!new)>(s: seq<T>, p: T -> bool): (k: Option<nat>)
    ensures k.None? <==> forall i :: 0 <= i < |s| ==> !p(s[i])
    ensures k.Some? ==> k.value < |s| && p(s[k.value]) && forall i :: 0 <= i < k.value ==> !p(s[i])
  {
    if s == [] then None
    else if p(s[0]) then Some(0)
    else match FirstIndex(s[1..], p)
      case None => None
      case Some(j) => Some(j + 1)
  }

  /** Two sequences whose elements satisfy `p` at the same positions have the same first match. */
  lemma FirstIndexAgrees<T(!new)>(s: seq<T>, t: seq<T>, p: T -> bool)
    requires |t| <= |s|
    requires forall i :: 0 <= i < |s| ==> (p(s[i]) <==> i < |t| && p(t[i]))
    ensures FirstIndex(s, p) == FirstIndex(t, p)
  {
    var a, b := FirstIndex(s, p), FirstIndex(t, p);
    if b.Some? {
      assert p(s[b.value]);
      assert a.Some?;
      assert !(a.value < b.value) && !(b.value < a.value);
    } else {
      assert forall i :: 0 <= i < |s| ==> !p(s[i]);
    }
  }

  /** The records produced by `for x in s: result.extend(f(x))`. */
  function FlatMap<T(!new), U(!new)>(s: seq<T>, f: T -> seq<U>): seq<U>
  {
    if s == [] then [] else FlatMap(s[..|s| - 1], f) + f(s[|s| - 1])
  }

  /** Every element of the result comes from the block of some input. */
  lemma {:induction false} FlatMapMembers<T(!new), U(!new)>(s: seq<T>, f: T -> seq<U>)
    ensures forall y :: y in FlatMap(s, f) ==> exists x :: x in s && y in f(x)
  {
    if s != [] {
      var init, last := s[..|s| - 1], s[|s| - 1];
      FlatMapMembers(init, f);
      forall y | y in FlatMap(s, f) ensures exists x :: x in s && y in f(x) {
        if y in FlatMap(init, f) {
          var x :| x in init && y in f(x);
          assert x in s;
        } else {
          assert y in f(last);
        }
      }
    }
  }

  lemma FlatMapSnoc<T(!new), U(!new)>(s: seq<T>, x: T, f: T -> seq<U>)
    ensures FlatMap(s + [x], f) == FlatMap(s, f) + f(x)
  {
    assert (s + [x])[..|s|] == s;
  }

  /** One more loop iteration: the prefix up to `i + 1` adds the block of `s[i]`. */
  lemma FlatMapPrefixStep<T(!new), U(!new)>(s: seq<T>, i: nat, f: T -> seq<U>)
    requires i < |s|
    ensures FlatMap(s[..i + 1], f) == FlatMap(s[..i], f) + f(s[i])
  {
    assert s[..i + 1] == s[..i] + [s[i]];
    FlatMapSnoc(s[..i], s[i], f);
  }

  /** A property that holds of every block and survives concatenation holds of the whole. */
  lemma {:induction false} FlatMapPreserves<T(!new), U(!new)>(s: seq<T>, f: T -> seq<U>, P: seq<U> -> bool)
    requires P([])
    requires forall a, b :: P(a) && P(b) ==> P(a + b)
    requires forall x :: x in s ==> P(f(x))
    ensures P(FlatMap(s, f))
  {
    if s != [] {
      FlatMapPreserves(s[..|s| - 1], f, P);
    }
  }

  /** Blocks of at most `k` elements give at most `k` elements per input. */
  lemma {:induction false} FlatMapLength<T(!new), U(!new)>(s: seq<T>, f: T -> seq<U>, k: nat)
    requires forall x :: x in s ==> |f(x)| <= k
    ensures |FlatMap(s, f)| <= k * |s|
  {
    if s != [] {
      var init, last := s[..|s| - 1], s[|s| - 1];
      FlatMapLength(init, f, k);
      assert last in s;
      assert forall x :: x in init ==> x in s;
      calc {
        |FlatMap(s, f)|;
        |FlatMap(init, f)| + |f(last)|;
      <= k * |init| + k;
        k * (|init| + 1);
        k * |s|;
      }
    }
  }

  ghost predicate TotalPreorder<T(!new)>(le: (T, T) -> bool)
  {
    && (forall a, b :: le(a, b) || le(b, a))
    && (forall a, b, c :: le(a, b) && le(b, c) ==> le(a, c))
  }

  ghost predicate SortedBy<T>(s: seq<T>, le: (T, T) -> bool)
  {
    forall i, j :: 0 <= i < j < |s| ==> le(s[i], s[j])
  }

  function Insert<T(!new)>(x: T, s: seq<T>, le: (T, T) -> bool): (r: seq<T>)
    requires TotalPreorder(le) && SortedBy(s, le)
    ensures SortedBy(r, le)
    ensures multiset(r) == multiset(s) + multiset{x}
  {
    if s == [] then [x]
    else if le(x, s[0]) then [x] + s
    else
      var rest := Insert(x, s[1..], le);
      assert s == [s[0]] + s[1..];
      ConsSorted(s, x, rest, le);
      [s[0]] + rest
  }

  /** Inserting past the head leaves the head below everything, so the head then the rest is sorted. */
  lemma ConsSorted<T(!new)>(s: seq<T>, x: T, rest: seq<T>, le: (T, T) -> bool)
    requires TotalPreorder(le) && SortedBy(s, le) && s != [] && !le(x, s[0])
    requires SortedBy(rest, le) && multiset(rest) == multiset(s[1..]) + multiset{x}
    ensures SortedBy([s[0]] + rest, le)
  {
    assert le(s[0], x);
    forall y | y in rest ensures le(s[0], y) {
      assert y in multiset(rest);
      if y != x {
        assert y in multiset(s[1..]);
        var k :| 0 <= k < |s[1..]| && s[1..][k] == y;
        assert s[k + 1] == y;
      }
    }
    var r := [s[0]] + rest;
    forall i, j | 0 <= i < j < |r| ensures le(r[i], r[j]) {
      if i == 0 {
        assert r[j] == rest[j - 1] && r[j] in rest;
      } else {
        assert r[i] == rest[i - 1] && r[j] == rest[j - 1];
      }
    }
  }

  /**
   * `sorted(s, key=...)` as a stable insertion sort: an element is placed
   * before the first element it does not follow, so equal keys keep their
   * original order.
   */
  function SortBy<T(!new)>(s: seq<T>, le: (T, T) -> bool): (r: seq<T>)
    requires TotalPreorder(le)
    ensures SortedBy(r, le)
    ensures multiset(r) == multiset(s)
  {
    if s == [] then []
    else
      assert s == [s[0]] + s[1..];
      Insert(s[0], SortBy(s[1..], le), le)
  }

  /** Slicing a sorted list keeps it sorted. */
  lemma SortedPrefix<T>(s: seq<T>, r: seq<T>, le: (T, T) -> bool)
    requires SortedBy(s, le) && r <= s
    ensures SortedBy(r, le)
  {
    assert forall i :: 0 <= i < |r| ==> r[i] == s[i];
  }

  /** Every element of a prefix is an element of the whole. */
  lemma PrefixMembers<T>(s: seq<T>, r: seq<T>)
    requires r <= s
    ensures forall x :: x in r ==> x in s
  {
    forall x | x in r ensures x in s {
      var i :| 0 <= i < |r| && r[i] == x;
      assert s[i] == x;
    }
  }

  /**
   * `s.sort(key=..., reverse=...)` followed by `s[:limit]`: the first
   * `limit` elements in sort order, so nothing left out sorts before
   * anything kept.
   */
  function SortedTake<T(!new)>(s: seq<T>, le: (T, T) -> bool, limit: int): (r: seq<T>)
    requires TotalPreorder(le)
    ensures 0 <= limit ==> |r| == Min(limit, |s|)
    ensures multiset(r) <= multiset(s)
    ensures forall x :: x in r ==> x in s
    ensures SortedBy(r, le)
    ensures forall x, y :: x in multiset(s) - multiset(r) && y in r ==> le(y, x)
    ensures limit >= |s| ==> multiset(r) == multiset(s)
  {
    var all := SortBy(s, le);
    var r := Take(all, limit);
    SortedPrefix(all, r, le);
    PrefixMembers(all, r);
    PrefixRest(s, all, r, le);
    r
  }

  /**
   * For a prefix `r` of a sorted permutation `all` of `s`: `r` draws from
   * `s`, nothing of `s` outside `r` sorts before anything in `r`, and `r` is
   * all of `s` once it is as long.
   */
  lemma PrefixRest<T>(s: seq<T>, all: seq<T>, r: seq<T>, le: (T, T) -> bool)
    requires SortedBy(all, le) && multiset(all) == multiset(s) && r <= all
    ensures multiset(r) <= multiset(s)
    ensures forall x :: x in r ==> x in s
    ensures forall x, y :: x in multiset(s) - multiset(r) && y in r ==> le(y, x)
    ensures |r| >= |s| ==> multiset(r) == multiset(s)
  {
    var rest := all[|r|..];
    assert all == r + rest;
    assert multiset(s) - multiset(r) == multiset(rest);
    forall x | x in r ensures x in s {
      assert x in multiset(all);
    }
    forall x, y | x in multiset(s) - multiset(r) && y in r ensures le(y, x) {
      assert x in rest;
      var j :| 0 <= j < |rest| && rest[j] == x;
      var i :| 0 <= i < |r| && r[i] == y;
      assert all[i] == y && all[|r| + j] == x;
    }
    if |r| >= |s| {
      assert r == all;
    }
  }

  /** Asking for more rows only extends the list: a smaller limit returns a prefix of a larger one. */
  lemma SortedTakeExtends<T(!new)>(s: seq<T>, le: (T, T) -> bool, k: int, k': int)
    requires TotalPreorder(le) && 0 <= k <= k'
    ensures SortedTake(s, le, k) <= SortedTake(s, le, k')
  {
    var all := SortBy(s, le);
    var a, b := Take(all, k), Take(all, k');
    assert a == all[..|a|] && b == all[..|b|];
    assert a == b[..|a|];
  }

  /** An element that sorts strictly before every other element is always returned when `limit >= 1`. */
  lemma SortedTakeKeepsFirst<T(!new)>(s: seq<T>, le: (T, T) -> bool, limit: int, x: T)
    requires TotalPreorder(le) && 1 <= limit && x in s
    requires forall y :: y in s && le(y, x) ==> y == x
    ensures x in SortedTake(s, le, limit)
  {
    var r := SortedTake(s, le, limit);
    assert |r| >= 1;
    var y := r[0];
    assert y in r;
  }
}
