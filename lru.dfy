/**
  The recency list of the player's audio cache (`audioCacheOrder`): the most
  recently used chunk index at the front, eviction from the back. These are
  the value-level definitions the player's cache methods are proved against,
  and the facts that make the list an LRU order.
 */
module Lru {

  predicate Distinct(s: seq<nat>) {
    forall i, j :: 0 <= i < j < |s| ==> s[i] != s[j]
  }

  function Elems(s: seq<nat>): set<nat> {
    set x | x in s
  }

  /** `Array.prototype.indexOf`: the first position of `x`, or -1. */
  function IndexOf(s: seq<nat>, x: nat): (i: int)
    ensures -1 <= i < |s|
    ensures i == -1 <==> x !in s
    ensures 0 <= i ==> s[i] == x && x !in s[..i]
    decreases |s|
  {
    if s == [] then -1
    else if s[0] == x then 0
    else
      var j := IndexOf(s[1..], x);
      if j == -1 then -1
      else
        assert s[..j + 1] == [s[0]] + s[1..][..j];
        j + 1
  }

  /** `s` with every occurrence of `x` removed, the rest in order. */
  function Without(s: seq<nat>, x: nat): (r: seq<nat>)
    ensures x !in r
    ensures Elems(r) == Elems(s) - {x}
    ensures |r| <= |s|
    decreases |s|
  {
    if s == [] then []
    else
      ElemsCons(s[0], s[1..]);
      assert s == [s[0]] + s[1..];
      if s[0] == x then Without(s[1..], x)
      else
        ElemsCons(s[0], Without(s[1..], x));
        [s[0]] + Without(s[1..], x)
  }

  lemma ElemsCons(a: nat, s: seq<nat>)
    ensures Elems([a] + s) == {a} + Elems(s)
  {
  }

  /** `x` made the most recently used: moved (or added) to the front, every
      other entry kept in its relative order. */
  function Touch(order: seq<nat>, x: nat): seq<nat> {
    [x] + Without(order, x)
  }

  /** The first `n` entries (all of them when there are fewer). */
  function Take(n: nat, s: seq<nat>): seq<nat> {
    if |s| <= n then s else s[..n]
  }

  /** What popping from the back until at most `n` entries remain removes. */
  function Evicted(n: nat, s: seq<nat>): seq<nat> {
    if |s| <= n then [] else s[n..]
  }

  /** `maxCacheSize || 10`: an unset or zero size means ten entries. */
  function Limit(maxCacheSize: nat): (n: nat)
    ensures n >= 1
    ensures maxCacheSize > 0 ==> n == maxCacheSize
  {
    if maxCacheSize == 0 then 10 else maxCacheSize
  }

  /** The distinct entries of an access log, most recent access first. */
  function RecencyOrder(log: seq<nat>): seq<nat>
    decreases |log|
  {
    if log == [] then [] else Touch(RecencyOrder(log[..|log| - 1]), log[|log| - 1])
  }

  lemma {:induction false} WithoutAppend(a: seq<nat>, b: seq<nat>, x: nat)
    ensures Without(a + b, x) == Without(a, x) + Without(b, x)
    decreases |a|
  {
    if a == [] {
      assert a + b == b;
    } else {
      assert (a + b)[1..] == a[1..] + b;
      WithoutAppend(a[1..], b, x);
    }
  }

  lemma {:induction false} WithoutAbsent(s: seq<nat>, x: nat)
    requires x !in s
    ensures Without(s, x) == s
    decreases |s|
  {
    if s != [] {
      WithoutAbsent(s[1..], x);
    }
  }

  lemma {:induction false} WithoutDistinct(s: seq<nat>, x: nat)
    requires Distinct(s)
    ensures Distinct(Without(s, x))
    ensures x in s ==> |Without(s, x)| == |s| - 1
    decreases |s|
  {
    if s != [] {
      assert Distinct(s[1..]);
      WithoutDistinct(s[1..], x);
      if s[0] == x {
        WithoutAbsent(s[1..], x);
      } else {
        var r := Without(s[1..], x);
        assert s[0] !in s[1..];
        assert s[0] !in Elems(r);
        assert s[0] !in r;
      }
    }
  }

  /** `splice(indexOf(x), 1)` on a list without duplicates removes exactly
      the entry `x`. */
  lemma SpliceIsWithout(s: seq<nat>, x: nat)
    requires Distinct(s) && x in s
    ensures s[..IndexOf(s, x)] + s[IndexOf(s, x) + 1..] == Without(s, x)
  {
    SpliceAt(s, IndexOf(s, x));
  }

  /** Removing the entry at `i` from a list without duplicates removes
      every occurrence of that entry. */
  lemma SpliceAt(s: seq<nat>, i: nat)
    requires Distinct(s) && i < |s|
    ensures s[..i] + s[i + 1..] == Without(s, s[i])
  {
    var x := s[i];
    assert s == (s[..i] + [x]) + s[i + 1..];
    WithoutAppend(s[..i] + [x], s[i + 1..], x);
    WithoutAppend(s[..i], [x], x);
    OnlyAt(s, i);
    WithoutAbsent(s[..i], x);
    WithoutAbsent(s[i + 1..], x);
  }

  /** In a list without duplicates the entry at `i` occurs nowhere else. */
  lemma OnlyAt(s: seq<nat>, i: nat)
    requires Distinct(s) && i < |s|
    ensures s[i] !in s[..i] && s[i] !in s[i + 1..]
  {
    forall j | 0 <= j < i ensures s[..i][j] != s[i] {
      assert s[..i][j] == s[j];
    }
    var after := s[i + 1..];
    forall j | 0 <= j < |after| ensures after[j] != s[i] {
      assert after[j] == s[i + 1 + j];
    }
  }

  /** `updateCacheOrder(x)`: `x` comes first and only once, the entries are
      those of before plus `x`, and the other entries keep their relative
      order. */
  lemma TouchFacts(order: seq<nat>, x: nat)
    requires Distinct(order)
    ensures Touch(order, x)[0] == x
    ensures Distinct(Touch(order, x))
    ensures Elems(Touch(order, x)) == Elems(order) + {x}
    ensures Without(Touch(order, x), x) == Without(order, x)
    ensures |Touch(order, x)| == if x in order then |order| else |order| + 1
  {
    var w := Without(order, x);
    var t := Touch(order, x);
    WithoutDistinct(order, x);
    if x !in order {
      WithoutAbsent(order, x);
    }
    assert t[1..] == w;
    WithoutAbsent(w, x);
    ElemsCons(x, w);
    assert x in order ==> Elems(order) == Elems(w) + {x} by {
      if x in order {
        assert x in Elems(order);
      }
    }
    assert Distinct(t) by {
      forall i, j | 0 <= i < j < |t| ensures t[i] != t[j] {
        if i == 0 {
          assert t[j] == w[j - 1];
        } else {
          assert t[i] == w[i - 1] && t[j] == w[j - 1];
        }
      }
    }
  }

  /** `cacheAudioBuffer(x, b)` on a consistent cache (its keys are the entries
      of its order list, which has no duplicates): the cache stays consistent,
      the list holds at most `limit` entries, `x` maps to `b`, evictions come
      from the back, and every other kept entry is unchanged. */
  lemma StoreFacts<V>(cache: map<nat, V>, order: seq<nat>, x: nat, b: V, limit: nat)
    requires cache.Keys == Elems(order) && Distinct(order) && limit >= 1
    ensures var t := Touch(order, x);
      var order' := Take(limit, t);
      var cache' := cache[x := b] - Elems(Evicted(limit, t));
      && Distinct(order')
      && cache'.Keys == Elems(order')
      && |order'| <= limit
      && order' + Evicted(limit, t) == t
      && x in cache' && cache'[x] == b
      && (forall k :: k in cache' && k != x ==> k in cache && cache'[k] == cache[k])
      && (|t| <= limit ==> cache'.Keys == cache.Keys + {x})
  {
    var t := Touch(order, x);
    TouchFacts(order, x);
    CutBack(t, limit);
    var cache' := cache[x := b] - Elems(Evicted(limit, t));
    assert Elems(t) == cache.Keys + {x};
    assert cache'.Keys == Elems(t) - Elems(Evicted(limit, t));
    assert x in Take(limit, t) by {
      assert t[0] == x;
    }
  }

  /** Popping a list without duplicates from the back down to `limit`
      entries: what is kept and what is evicted partition the entries. */
  lemma CutBack(t: seq<nat>, limit: nat)
    requires Distinct(t)
    ensures Take(limit, t) + Evicted(limit, t) == t
    ensures Distinct(Take(limit, t))
    ensures |Take(limit, t)| <= limit
    ensures Elems(Take(limit, t)) == Elems(t) - Elems(Evicted(limit, t))
  {
    if |t| > limit {
      CutAt(t, limit);
    } else {
      assert t + [] == t;
    }
  }

  /** Cutting a list without duplicates in two: the front keeps no
      duplicates and holds exactly the entries that are not in the back. */
  lemma CutAt(t: seq<nat>, n: nat)
    requires Distinct(t) && n <= |t|
    ensures t[..n] + t[n..] == t
    ensures Distinct(t[..n])
    ensures Elems(t[..n]) == Elems(t) - Elems(t[n..])
  {
    assert t[..n] + t[n..] == t;
    forall i, j | 0 <= i < j < n ensures t[..n][i] != t[..n][j] {
      assert t[..n][i] == t[i] && t[..n][j] == t[j];
    }
    ElemsAppend(t[..n], t[n..]);
    forall k | k in t[..n] ensures k !in t[n..] {
      var i :| 0 <= i < n && t[..n][i] == k;
      forall j | 0 <= j < |t| - n ensures t[n..][j] != k {
        assert t[..n][i] == t[i] && t[n..][j] == t[n + j];
      }
    }
  }

  lemma ElemsAppend(a: seq<nat>, b: seq<nat>)
    ensures Elems(a + b) == Elems(a) + Elems(b)
  {
  }

  /** One round of the eviction loop: popping the entry in front of an
      already evicted tail removes that entry too. */
  lemma PopOne<V>(cache: map<nat, V>, t: seq<nat>, n: nat)
    requires 0 < n <= |t|
    ensures cache - Elems(t[n..]) - {t[n - 1]} == cache - Elems(t[n - 1..])
  {
    assert t[n - 1..] == [t[n - 1]] + t[n..];
    assert Elems(t[n - 1..]) == {t[n - 1]} + Elems(t[n..]);
  }

  lemma TakeIsPrefix(n: nat, s: seq<nat>)
    ensures Take(n, s) <= s
  {
  }

  /** Distinct entries of the log, most recent first. */
  lemma {:induction false} RecencyOrderFacts(log: seq<nat>)
    ensures Distinct(RecencyOrder(log))
    ensures Elems(RecencyOrder(log)) == Elems(log)
    decreases |log|
  {
    if log != [] {
      var init := log[..|log| - 1];
      RecencyOrderFacts(init);
      TouchFacts(RecencyOrder(init), log[|log| - 1]);
      assert log == init + [log[|log| - 1]];
    }
  }

  /** Touching keeps a prefix of the recency order a prefix of the new
      recency order. */
  lemma TouchPrefix(order: seq<nat>, r: seq<nat>, x: nat)
    requires order <= r
    ensures Touch(order, x) <= Touch(r, x)
  {
    assert r == order + r[|order|..];
    WithoutAppend(order, r[|order|..], x);
  }

  /** Cutting the list back keeps it a prefix. */
  lemma TakePrefix(order: seq<nat>, r: seq<nat>, n: nat)
    requires order <= r
    ensures Take(n, order) <= r
  {
  }

  /** The LRU property: when the list is the `limit` most recently used
      entries, touching `x` and cutting back to `limit` entries gives the
      `limit` most recently used entries again. */
  lemma TouchTake(r: seq<nat>, x: nat, limit: nat)
    requires Distinct(r) && limit >= 1
    ensures Take(limit, Touch(Take(limit, r), x)) == Take(limit, Touch(r, x))
  {
    var order := Take(limit, r);
    if |r| > limit {
      var rest := r[limit..];
      assert r == order + rest;
      WithoutAppend(order, rest, x);
      assert Distinct(order);
      WithoutDistinct(order, x);
      if x !in order {
        WithoutAbsent(order, x);
      }
      assert Touch(r, x) == Touch(order, x) + Without(rest, x);
    }
  }

  /** With a fixed limit the cache keeps exactly the `limit` most recently
      used chunks: a store appends to the access log. */
  lemma StoreKeepsMostRecent(log: seq<nat>, x: nat, limit: nat)
    requires limit >= 1
    ensures Take(limit, Touch(Take(limit, RecencyOrder(log)), x)) == Take(limit, RecencyOrder(log + [x]))
  {
    RecencyOrderFacts(log);
    TouchTake(RecencyOrder(log), x, limit);
    assert (log + [x])[..|log|] == log;
  }

  /** A cache hit on the `limit` most recently used entries needs no eviction
      and leaves the `limit` most recently used entries. */
  lemma HitKeepsMostRecent(log: seq<nat>, x: nat, limit: nat)
    requires limit >= 1 && x in Take(limit, RecencyOrder(log))
    ensures Touch(Take(limit, RecencyOrder(log)), x) == Take(limit, RecencyOrder(log + [x]))
  {
    var order := Take(limit, RecencyOrder(log));
    RecencyOrderFacts(log);
    assert Distinct(order);
    TouchFacts(order, x);
    StoreKeepsMostRecent(log, x, limit);
  }

  /** Capacity two: storing 0, 1, 2 keeps {1, 2}; a hit on 1 followed by a
      store of 3 keeps {1, 3}. */
  lemma CapacityTwoScenario(limit: nat)
    requires limit == 2
    ensures var o3 := Take(limit, Touch(Take(limit, Touch(Take(limit, Touch([], 0)), 1)), 2));
      && Elems(o3) == {1, 2}
      && Elems(Take(limit, Touch(Touch(o3, 1), 3))) == {1, 3}
  {
    assert Touch([], 0) == [0];
    assert Without([0], 1) == [0];
    assert Touch([0], 1) == [1, 0];
    assert Without([1, 0], 2) == [1, 0] by {
      assert [1, 0][1..] == [0];
    }
    assert Touch([1, 0], 2) == [2, 1, 0];
    assert Take(limit, [2, 1, 0]) == [2, 1];
    assert Without([2, 1], 1) == [2] by {
      assert [2, 1][1..] == [1];
      assert Without([1], 1) == [];
    }
    assert Touch([2, 1], 1) == [1, 2];
    assert Without([1, 2], 3) == [1, 2] by {
      assert [1, 2][1..] == [2];
    }
    assert Touch([1, 2], 3) == [3, 1, 2];
    assert Take(limit, [3, 1, 2]) == [3, 1];
    assert Elems([2, 1]) == {1, 2} by {
      assert [2, 1][0] == 2 && [2, 1][1] == 1;
    }
    assert Elems([3, 1]) == {1, 3} by {
      assert [3, 1][0] == 3 && [3, 1][1] == 1;
    }
  }
}
