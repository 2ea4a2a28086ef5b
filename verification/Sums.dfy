/** Weighted totals over sequences: the vocabulary in which the ledger's sums are stated. */
module Sums {
  datatype Option<+T> = None | Some(value: T)

  /** The sum of `w` over the elements of `s`. */
  function Total<T>(s: seq<T>, w: T -> int): int {
    if s == [] then 0 else w(s[0]) + Total(s[1..], w)
  }

  /** The elements of `s` that satisfy `p`, in order. */
  function Filter<T>(s: seq<T>, p: T -> bool): seq<T> {
    if s == [] then []
    else if p(s[|s| - 1]) then Filter(s[..|s| - 1], p) + [s[|s| - 1]]
    else Filter(s[..|s| - 1], p)
  }

  /** Where `p` first holds, or the length. */
  function IndexWhere<T>(s: seq<T>, p: T -> bool): (k: nat)
    ensures k <= |s|
    ensures k < |s| ==> p(s[k])
    ensures forall i :: 0 <= i < k ==> !p(s[i])
  {
    if s == [] then 0 else if p(s[0]) then 0 else 1 + IndexWhere(s[1..], p)
  }

  predicate Distinct<T(==)>(s: seq<T>) {
    forall i, j :: 0 <= i < j < |s| ==> s[i] != s[j]
  }

  lemma {:induction false} TotalAppend<T>(a: seq<T>, b: seq<T>, w: T -> int)
    ensures Total(a + b, w) == Total(a, w) + Total(b, w)
  {
    if a == [] {
      assert a + b == b;
    } else {
      assert (a + b)[1..] == a[1..] + b;
      TotalAppend(a[1..], b, w);
    }
  }

  lemma TotalSnoc<T>(s: seq<T>, x: T, w: T -> int)
    ensures Total(s + [x], w) == Total(s, w) + w(x)
  {
    TotalAppend(s, [x], w);
  }

  lemma TotalSplit<T>(s: seq<T>, i: nat, w: T -> int)
    requires i < |s|
    ensures Total(s, w) == Total(s[..i], w) + w(s[i]) + Total(s[i + 1..], w)
    ensures Total(s[..i] + s[i + 1..], w) == Total(s, w) - w(s[i])
  {
    assert s == s[..i] + s[i..];
    assert s[i..][1..] == s[i + 1..];
    TotalAppend(s[..i], s[i..], w);
    TotalAppend(s[..i], s[i + 1..], w);
  }

  lemma TotalLast<T>(s: seq<T>, w: T -> int)
    requires s != []
    ensures Total(s, w) == Total(s[..|s| - 1], w) + w(s[|s| - 1])
  {
    assert s == s[..|s| - 1] + [s[|s| - 1]];
    TotalSnoc(s[..|s| - 1], s[|s| - 1], w);
  }

  /** Pointwise order of the weights is order of the totals. */
  lemma {:induction false} TotalMonotone<S, T>(a: seq<S>, b: seq<T>, v: S -> int, w: T -> int)
    requires |a| == |b|
    requires forall i :: 0 <= i < |a| ==> v(a[i]) <= w(b[i])
    ensures Total(a, v) <= Total(b, w)
  {
    if a != [] {
      TotalMonotone(a[1..], b[1..], v, w);
    }
  }

  lemma TotalCongruent<S, T>(a: seq<S>, b: seq<T>, v: S -> int, w: T -> int)
    requires |a| == |b|
    requires forall i :: 0 <= i < |a| ==> v(a[i]) == w(b[i])
    ensures Total(a, v) == Total(b, w)
  {
    TotalMonotone(a, b, v, w);
    TotalMonotone(b, a, w, v);
  }

  /** A strict step at one place makes the whole total strictly larger. */
  lemma TotalStrict<S, T>(a: seq<S>, b: seq<T>, v: S -> int, w: T -> int, k: nat)
    requires |a| == |b| && k < |a|
    requires forall i :: 0 <= i < |a| ==> v(a[i]) <= w(b[i])
    requires v(a[k]) < w(b[k])
    ensures Total(a, v) < Total(b, w)
  {
    TotalSplit(a, k, v);
    TotalSplit(b, k, w);
    TotalMonotone(a[..k], b[..k], v, w);
    TotalMonotone(a[k + 1..], b[k + 1..], v, w);
  }

  lemma {:induction false} TotalNonNegative<T>(s: seq<T>, w: T -> int)
    requires forall i :: 0 <= i < |s| ==> w(s[i]) >= 0
    ensures Total(s, w) >= 0
  {
    if s != [] {
      TotalNonNegative(s[1..], w);
    }
  }

  lemma {:induction false} TotalZero<T>(s: seq<T>, w: T -> int)
    requires forall i :: 0 <= i < |s| ==> w(s[i]) == 0
    ensures Total(s, w) == 0
  {
    if s != [] {
      TotalZero(s[1..], w);
    }
  }

  /** When only position `k` weighs anything, the total is that weight. */
  lemma TotalSingle<T>(s: seq<T>, w: T -> int, k: nat)
    requires k < |s|
    requires forall i :: 0 <= i < |s| && i != k ==> w(s[i]) == 0
    ensures Total(s, w) == w(s[k])
  {
    TotalSplit(s, k, w);
    TotalZero(s[..k], w);
    TotalZero(s[k + 1..], w);
  }

  /** Totals are additive in the weight. */
  lemma {:induction false} TotalPlus<T>(s: seq<T>, u: T -> int, v: T -> int, w: T -> int)
    requires forall i :: 0 <= i < |s| ==> w(s[i]) == u(s[i]) + v(s[i])
    ensures Total(s, w) == Total(s, u) + Total(s, v)
  {
    if s != [] {
      TotalPlus(s[1..], u, v, w);
    }
  }

  lemma FilterSnoc<T>(s: seq<T>, x: T, p: T -> bool)
    ensures Filter(s + [x], p) == if p(x) then Filter(s, p) + [x] else Filter(s, p)
  {
    assert (s + [x])[..|s|] == s;
  }

  lemma {:induction false} FilterMember<T>(s: seq<T>, p: T -> bool, x: T)
    ensures x in Filter(s, p) <==> x in s && p(x)
  {
    if s != [] {
      var n := |s| - 1;
      assert s == s[..n] + [s[n]];
      FilterMember(s[..n], p, x);
    }
  }

  lemma {:induction false} FilterIndex<T>(s: seq<T>, p: T -> bool, k: nat) returns (i: nat)
    requires k < |Filter(s, p)|
    ensures i < |s| && s[i] == Filter(s, p)[k] && p(s[i])
  {
    var n := |s| - 1;
    if p(s[n]) && k == |Filter(s, p)| - 1 {
      i := n;
    } else {
      i := FilterIndex(s[..n], p, k);
    }
  }

  /** Filtering keeps the order: two kept elements stand the same way round in the original. */
  lemma {:induction false} FilterPair<T>(s: seq<T>, p: T -> bool, j: nat, k: nat) returns (a: nat, b: nat)
    requires j < k < |Filter(s, p)|
    ensures a < b < |s|
    ensures s[a] == Filter(s, p)[j] && s[b] == Filter(s, p)[k] && p(s[a]) && p(s[b])
  {
    var n := |s| - 1;
    if p(s[n]) && k == |Filter(s, p)| - 1 {
      a := FilterIndex(s[..n], p, j);
      b := n;
    } else {
      a, b := FilterPair(s[..n], p, j, k);
    }
  }

  lemma {:induction false} FilterNone<T>(s: seq<T>, p: T -> bool)
    requires forall i :: 0 <= i < |s| ==> !p(s[i])
    ensures Filter(s, p) == []
  {
    if s != [] {
      FilterNone(s[..|s| - 1], p);
    }
  }

  /** Summing a filtered sequence is summing a weight that vanishes outside the filter. */
  lemma {:induction false} TotalFilter<T>(s: seq<T>, p: T -> bool, w: T -> int, masked: T -> int)
    requires forall i :: 0 <= i < |s| ==> masked(s[i]) == if p(s[i]) then w(s[i]) else 0
    ensures Total(Filter(s, p), w) == Total(s, masked)
  {
    if s != [] {
      var n := |s| - 1;
      assert s == s[..n] + [s[n]];
      TotalFilter(s[..n], p, w, masked);
      TotalSnoc(s[..n], s[n], masked);
      TotalSnoc(Filter(s[..n], p), s[n], w);
    }
  }

  /** Distinct elements inside a range as small as the sequence fill it: the pigeonhole step. */
  lemma {:induction false} PigeonholeSubset(keys: seq<nat>, listed: seq<nat>)
    requires Distinct(keys)
    requires forall k :: k in keys ==> k in listed
    requires |keys| == |listed|
    ensures Distinct(listed)
    ensures forall k :: k in listed ==> k in keys
  {
    if keys != [] {
      var k := keys[0];
      assert k in keys && k in listed;
      var j :| 0 <= j < |listed| && listed[j] == k;
      var others := listed[..j] + listed[j + 1..];
      forall x | x in keys[1..] ensures x in others {
        assert x in keys && x in listed;
        var i :| 0 <= i < |listed| && listed[i] == x;
        assert i != j;
        assert others[if i < j then i else i - 1] == x;
      }
      PigeonholeSubset(keys[1..], others);
      forall x | x in listed ensures x in keys {
        if x != k {
          var i :| 0 <= i < |listed| && listed[i] == x;
          assert others[if i < j then i else i - 1] == x;
          assert x in others && x in keys[1..];
        }
      }
      forall a, b | 0 <= a < b < |listed| ensures listed[a] != listed[b] {
        if a != j && b != j {
          assert others[if a < j then a else a - 1] == listed[a];
          assert others[if b < j then b else b - 1] == listed[b];
        } else {
          var c := if a == j then b else a;
          assert others[if c < j then c else c - 1] == listed[c];
          assert listed[c] in keys[1..];
          assert k !in keys[1..];
        }
      }
    }
  }

  /** The state after a sequence of actions. */
  function Folded<S, A>(step: (S, A) -> S, s: S, actions: seq<A>): S {
    if actions == [] then s
    else step(Folded(step, s, actions[..|actions| - 1]), actions[|actions| - 1])
  }

  /** When an action either does nothing or leaves nothing to do, the first that does something decides. */
  lemma {:induction false} FirstDecides<S, A(!new)>(step: (S, A) -> S, s: S, actions: seq<A>, counts: A -> bool)
    returns (first: nat)
    requires forall a :: !counts(a) ==> step(s, a) == s
    requires forall f, a :: counts(f) ==> step(step(s, f), a) == step(s, f)
    ensures first <= |actions| && forall k :: 0 <= k < first ==> !counts(actions[k])
    ensures first == |actions| ==> Folded(step, s, actions) == s
    ensures first < |actions| ==> counts(actions[first]) && Folded(step, s, actions) == step(s, actions[first])
  {
    if actions == [] {
      first := 0;
    } else {
      first := FirstDecides(step, s, actions[..|actions| - 1], counts);
      if first == |actions| - 1 && !counts(actions[first]) {
        first := first + 1;
      }
    }
  }
}
