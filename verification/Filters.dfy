/** Filtering and picking from sequences, shared by the queue models. */
module Filters {
  function Filter<T(!new)>(q: seq<T>, keep: T -> bool): (r: seq<T>)
    ensures forall x :: x in r <==> x in q && keep(x)
  {
    if q == [] then []
    else
      var n := |q| - 1;
      Filter(q[..n], keep) + (if keep(q[n]) then [q[n]] else [])
  }

  lemma {:induction false} Associative<T>(a: seq<T>, b: seq<T>, c: seq<T>)
    ensures (a + b) + c == a + (b + c)
  {}

  lemma {:induction false} FilterSnoc<T(!new)>(q: seq<T>, x: T, keep: T -> bool)
    ensures Filter(q + [x], keep) == Filter(q, keep) + (if keep(x) then [x] else [])
  {
    assert (q + [x])[..|q|] == q;
  }

  lemma {:induction false} FilterOfOne<T(!new)>(x: T, keep: T -> bool)
    ensures Filter([x], keep) == if keep(x) then [x] else []
  {
    assert [x][..0] == [] && Filter([], keep) == [];
  }

  lemma {:induction false} FilterConcat<T(!new)>(p: seq<T>, q: seq<T>, keep: T -> bool)
    ensures Filter(p + q, keep) == Filter(p, keep) + Filter(q, keep)
  {
    if q == [] {
      assert p + q == p;
    } else {
      var front, x := q[..|q| - 1], q[|q| - 1];
      assert q == front + [x];
      FilterConcat(p, front, keep);
      FilterSnoc(p + front, x, keep);
      FilterSnoc(front, x, keep);
      hide Filter;
      Associative(p, front, [x]);
      Associative(Filter(p, keep), Filter(front, keep), if keep(x) then [x] else []);
    }
  }

  lemma {:induction false} SnocEqual<T>(p: seq<T>, q: seq<T>, x: T)
    ensures p + [x] == q + [x] <==> p == q
  {
    assert (p + [x])[..|p|] == p && (q + [x])[..|q|] == q;
  }

  lemma {:induction false} FilterAll<T(!new)>(q: seq<T>, keep: T -> bool)
    ensures |Filter(q, keep)| <= |q|
    ensures Filter(q, keep) == q <==> forall x :: x in q ==> keep(x)
  {
    if q != [] {
      var n := |q| - 1;
      var front, x := q[..n], q[n];
      assert q == front + [x] && x in q && forall y :: y in q <==> y in front || y == x;
      FilterAll(front, keep);
      FilterSnoc(front, x, keep);
      hide Filter;
      SnocEqual(Filter(front, keep), front, x);
    }
  }

  lemma {:induction false} FilterLength<T(!new)>(q: seq<T>, keep: T -> bool)
    ensures |Filter(q, keep)| == |q| <==> forall x :: x in q ==> keep(x)
  {
    if q != [] {
      var front, x := q[..|q| - 1], q[|q| - 1];
      assert q == front + [x] && x in q && forall y :: y in q <==> y in front || y == x;
      FilterLength(front, keep);
      FilterAll(front, keep);
      FilterSnoc(front, x, keep);
    }
  }

  lemma {:induction false} FilterNone<T(!new)>(q: seq<T>, keep: T -> bool)
    requires forall x :: x in q ==> !keep(x)
    ensures Filter(q, keep) == []
  {
    if q != [] {
      FilterNone(q[..|q| - 1], keep);
    }
  }

  /** Dropping one kind after another drops both. */
  lemma {:induction false} FilterBoth<T(!new)>(q: seq<T>, keep: T -> bool, also: T -> bool, both: T -> bool)
    requires forall x :: x in q ==> (both(x) <==> keep(x) && also(x))
    ensures Filter(Filter(q, keep), also) == Filter(q, both)
  {
    if q != [] {
      var n := |q| - 1;
      FilterBoth(q[..n], keep, also, both);
      FilterConcat(Filter(q[..n], keep), if keep(q[n]) then [q[n]] else [], also);
    }
  }

  predicate Indexes(ks: seq<nat>, n: nat) {
    forall i :: 0 <= i < |ks| ==> ks[i] < n
  }

  /** Consecutive places from `from` on. */
  function Places(from: nat, n: nat): (ks: seq<nat>) {
    seq(n, i requires 0 <= i < n => from + i)
  }

  predicate Increasing(ks: seq<nat>) {
    forall i, j :: 0 <= i < j < |ks| ==> ks[i] < ks[j]
  }

  /** The elements at the given places. */
  function Pick<T>(log: seq<T>, ks: seq<nat>): (r: seq<T>)
    requires Indexes(ks, |log|)
    ensures |r| == |ks| && forall i :: 0 <= i < |ks| ==> r[i] == log[ks[i]]
  {
    seq(|ks|, i requires 0 <= i < |ks| => log[ks[i]])
  }

  /** Is the element at place `k` of the log one to keep? */
  function KeepAt<T>(log: seq<T>, keep: T -> bool): nat -> bool {
    (k: nat) => k < |log| && keep(log[k])
  }

  lemma {:induction false} PickSnoc<T>(log: seq<T>, ks: seq<nat>, k: nat)
    requires Indexes(ks, |log|) && k < |log|
    ensures Indexes(ks + [k], |log|) && Pick(log, ks + [k]) == Pick(log, ks) + [log[k]]
  {}

  /** Filtering what was picked is picking what is left of the places. */
  lemma {:induction false} FilterPicked<T(!new)>(log: seq<T>, ks: seq<nat>, keep: T -> bool)
    requires Indexes(ks, |log|)
    ensures var left := Filter(ks, KeepAt(log, keep));
            Indexes(left, |log|) && Filter(Pick(log, ks), keep) == Pick(log, left)
  {
    if ks != [] {
      var n := |ks| - 1;
      FilterPicked(log, ks[..n], keep);
      assert Pick(log, ks) == Pick(log, ks[..n]) + [log[ks[n]]];
      FilterSnoc(Pick(log, ks[..n]), log[ks[n]], keep);
      var before := Filter(ks[..n], KeepAt(log, keep));
      assert ks == ks[..n] + [ks[n]];
      FilterSnoc(ks[..n], ks[n], KeepAt(log, keep));
      hide Filter;
      PickSnoc(log, before, ks[n]);
      assert before + [] == before && Pick(log, before) + [] == Pick(log, before);
    }
  }

  lemma {:induction false} FilterIncreasing(ks: seq<nat>, keep: nat -> bool)
    requires Increasing(ks)
    ensures Increasing(Filter(ks, keep))
  {
    if ks != [] {
      var n := |ks| - 1;
      FilterIncreasing(ks[..n], keep);
      var front := Filter(ks[..n], keep);
      forall i | 0 <= i < |front| ensures front[i] < ks[n] {
        assert front[i] in ks[..n];
      }
    }
  }

  /** In an increasing sequence the front and the back have nothing in common. */
  lemma {:induction false} IncreasingApart(p: seq<nat>, q: seq<nat>)
    requires Increasing(p + q)
    ensures Increasing(p) && Increasing(q)
    ensures forall k :: k in p ==> k !in q
  {
    var all := p + q;
    forall i, j | 0 <= i < |p| && 0 <= j < |q| ensures p[i] < q[j] {
      assert all[i] < all[|p| + j];
    }
    forall i, j | 0 <= i < j < |p| ensures p[i] < p[j] {
      assert all[i] < all[j];
    }
    forall i, j | 0 <= i < j < |q| ensures q[i] < q[j] {
      assert all[|p| + i] < all[|p| + j];
    }
  }

  lemma {:induction false} IncreasingLeft(p: seq<nat>, q: seq<nat>, left: seq<nat>)
    requires Increasing(p + q) && Increasing(left) && forall k :: k in left ==> k in q
    ensures Increasing(p + left)
  {
    var all := p + q;
    forall i, j | 0 <= i < |p| && 0 <= j < |left| ensures p[i] < left[j] {
      assert left[j] in q;
      var m :| 0 <= m < |q| && q[m] == left[j];
      assert all[i] < all[|p| + m];
    }
    IncreasingApart(p, q);
  }

  /** New elements go to the log and, at their places, behind the queue. */
  lemma {:induction false} PickAppended<T>(log: seq<T>, ks: seq<nat>, more: seq<T>)
    requires Indexes(ks, |log|)
    ensures var after := ks + Places(|log|, |more|);
            Indexes(after, |log + more|) && Pick(log + more, after) == Pick(log, ks) + more
    ensures Indexes(ks, |log + more|) && Pick(log + more, ks) == Pick(log, ks)
  {}

  lemma {:induction false} IncreasingAppended(p: seq<nat>, q: seq<nat>, n: nat, m: nat)
    requires Increasing(p + q) && Indexes(p + q, n)
    ensures Increasing(p + (q + Places(n, m))) && Indexes(p + (q + Places(n, m)), n + m)
  {
    assert p + (q + Places(n, m)) == (p + q) + Places(n, m);
  }
}
