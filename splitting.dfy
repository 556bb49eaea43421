/**
 * The train/test splitter `split_data`.
 *
 * The training indices are drawn at random without replacement; here they are
 * an input (distinct, each below the number of labels). The splitter projects
 * positions and labels through them, builds the set of all indices, removes
 * every training index from it, and projects positions and labels through
 * whatever remains, listed in the set's (unspecified) iteration order.
 */
module Splitting {

  ghost predicate Distinct(s: seq<nat>) {
    forall i, j :: 0 <= i < j < |s| ==> s[i] != s[j]
  }

  ghost predicate AllBelow(s: seq<nat>, n: nat) {
    forall k :: 0 <= k < |s| ==> s[k] < n
  }

  /** The index set `{0, ..., n - 1}`. */
  function Range(n: nat): (r: set<nat>)
    ensures forall i :: i in r <==> 0 <= i < n
  {
    if n == 0 then {} else Range(n - 1) + {n - 1}
  }

  /** `train` and `test` together list every index below `n` exactly once. */
  ghost predicate Partitions(train: seq<nat>, test: seq<nat>, n: nat) {
    && Distinct(train + test)
    && forall i: nat :: i in train + test <==> i < n
  }

  /** The elements of `xs` at the positions `inds`, in the order of `inds`. */
  function Project<T>(xs: seq<T>, inds: seq<nat>): (r: seq<T>)
    requires AllBelow(inds, |xs|)
    ensures |r| == |inds|
    ensures forall k :: 0 <= k < |inds| ==> r[k] == xs[inds[k]]
  {
    seq(|inds|, k requires 0 <= k < |inds| => xs[inds[k]])
  }

  /** The (position, label) pairs of a dataset. */
  function Pairs<T, L>(xs: seq<T>, ys: seq<L>): (r: seq<(T, L)>)
    requires |xs| == |ys|
    ensures |r| == |xs| && forall k :: 0 <= k < |xs| ==> r[k] == (xs[k], ys[k])
  {
    seq(|xs|, k requires 0 <= k < |xs| => (xs[k], ys[k]))
  }

  lemma {:induction false} RangeSize(n: nat)
    ensures |Range(n)| == n
  {
    if n > 0 {
      var smaller := Range(n - 1);
      RangeSize(n - 1);
      assert Range(n) == smaller + {n - 1} && n - 1 !in smaller;
    }
  }

  /** `list(a)`: the elements of a set, each once, in an unspecified order. */
  method ListOfSet(a: set<nat>) returns (s: seq<nat>)
    ensures Distinct(s) && |s| == |a|
    ensures forall x: nat :: x in s <==> x in a
  {
    s := [];
    var rest := a;
    while rest != {}
      invariant rest <= a && |s| + |rest| == |a|
      invariant Distinct(s)
      invariant forall x: nat :: x in s <==> x in a && x !in rest
      decreases rest
    {
      var x :| x in rest;
      s := s + [x];
      rest := rest - {x};
    }
  }

  /** Removing the entry at position `k` of a distinct index list removes
      exactly that index. */
  lemma RemoveAt(inds: seq<nat>, k: nat)
    requires Distinct(inds) && k < |inds|
    ensures Distinct(inds[..k] + inds[k + 1..])
    ensures forall i: nat :: i in inds[..k] + inds[k + 1..] <==> i in inds && i != inds[k]
  {
    var rest := inds[..k] + inds[k + 1..];
    assert forall j :: 0 <= j < |rest| ==> rest[j] == if j < k then inds[j] else inds[j + 1];
    forall i: nat ensures i in rest <==> i in inds && i != inds[k] {
      if i in inds && i != inds[k] {
        var j :| 0 <= j < |inds| && inds[j] == i;
        assert rest[if j < k then j else j - 1] == i;
      }
    }
  }

  lemma ProjectSplitAt<T>(xs: seq<T>, inds: seq<nat>, k: nat)
    requires AllBelow(inds, |xs|) && k < |inds|
    ensures AllBelow(inds[..k], |xs|) && AllBelow(inds[k + 1..], |xs|)
    ensures Project(xs, inds) == Project(xs, inds[..k]) + [xs[inds[k]]] + Project(xs, inds[k + 1..])
  {
    var before, after := inds[..k], inds[k + 1..];
    assert AllBelow(before, |xs|) && AllBelow(after, |xs|);
    var l, r := Project(xs, before), Project(xs, after);
    var split := l + [xs[inds[k]]] + r;
    forall i | 0 <= i < |inds| ensures split[i] == xs[inds[i]] {
      if i < k {
        assert split[i] == l[i] == xs[before[i]];
      } else if i > k {
        assert split[i] == r[i - k - 1] == xs[after[i - k - 1]];
      }
    }
  }

  lemma ProjectPrefix<T>(xs: seq<T>, inds: seq<nat>, n: nat)
    requires n <= |xs| && AllBelow(inds, n)
    ensures Project(xs, inds) == Project(xs[..n], inds)
  {
  }

  /** Projecting through a reordering of all indices keeps every element the
      same number of times. */
  lemma {:induction false} ProjectReordering<T>(xs: seq<T>, inds: seq<nat>)
    requires Distinct(inds) && forall i: nat :: i in inds <==> i < |xs|
    ensures AllBelow(inds, |xs|)
    ensures multiset(Project(xs, inds)) == multiset(xs)
    decreases |xs|
  {
    assert forall k :: 0 <= k < |inds| ==> inds[k] in inds;
    if xs != [] {
      var n := |xs| - 1;
      assert n in inds;
      var k :| 0 <= k < |inds| && inds[k] == n;
      var before, after := inds[..k], inds[k + 1..];
      RemoveAt(inds, k);
      forall i: nat ensures i in before + after <==> i < n {
        assert i in before + after <==> i in inds && i != n;
        assert i in inds <==> i < |xs|;
      }
      ProjectReordering(xs[..n], before + after);
      ReorderStep(xs, inds, k);
    }
  }

  /** The inductive step of ProjectReordering: the last element is projected
      once, at position `k`, and the other positions project `xs[..n]`. */
  lemma ReorderStep<T>(xs: seq<T>, inds: seq<nat>, k: nat)
    requires AllBelow(inds, |xs|) && k < |inds| && inds[k] == |xs| - 1
    requires AllBelow(inds[..k] + inds[k + 1..], |xs| - 1)
    requires multiset(Project(xs[..|xs| - 1], inds[..k] + inds[k + 1..])) == multiset(xs[..|xs| - 1])
    ensures multiset(Project(xs, inds)) == multiset(xs)
  {
    var n := |xs| - 1;
    var before, after := inds[..k], inds[k + 1..];
    ProjectSplitAt(xs, inds, k);
    ProjectPrefix(xs, before + after, n);
    ProjectAppend(xs, before, after);
    var pb, pa := Project(xs, before), Project(xs, after);
    assert multiset(Project(xs, inds)) == multiset(pb + pa) + multiset([xs[n]]) by {
      assert Project(xs, inds) == pb + [xs[n]] + pa;
    }
    assert multiset(pb + pa) == multiset(xs[..n]);
    LastSplit(xs);
  }

  lemma LastSplit<T>(xs: seq<T>)
    requires xs != []
    ensures multiset(xs) == multiset(xs[..|xs| - 1]) + multiset([xs[|xs| - 1]])
  {
    assert xs == xs[..|xs| - 1] + [xs[|xs| - 1]];
  }

  lemma ProjectAppend<T>(xs: seq<T>, a: seq<nat>, b: seq<nat>)
    requires AllBelow(a, |xs|) && AllBelow(b, |xs|)
    ensures AllBelow(a + b, |xs|)
    ensures Project(xs, a + b) == Project(xs, a) + Project(xs, b)
  {
    assert AllBelow(a + b, |xs|);
  }

  lemma ProjectPairs<T, L>(xs: seq<T>, ys: seq<L>, inds: seq<nat>)
    requires |xs| == |ys| && AllBelow(inds, |xs|)
    ensures Pairs(Project(xs, inds), Project(ys, inds)) == Project(Pairs(xs, ys), inds)
  {
  }

  /** Every (position, label) pair of the dataset ends up on exactly one side
      of a partition of its indices, as often as it occurs in the dataset. */
  lemma {:induction false} NothingLostNothingDuplicated<T, L>(data: seq<T>, labels: seq<L>, train: seq<nat>, test: seq<nat>)
    requires |data| == |labels| && Partitions(train, test, |labels|)
    ensures AllBelow(train, |labels|) && AllBelow(test, |labels|)
    ensures multiset(Pairs(Project(data, train), Project(labels, train)))
          + multiset(Pairs(Project(data, test), Project(labels, test)))
         == multiset(Pairs(data, labels))
  {
    var all := Pairs(data, labels);
    ProjectReordering(all, train + test);
    assert forall k :: 0 <= k < |train| ==> (train + test)[k] == train[k];
    assert forall k :: 0 <= k < |test| ==> (train + test)[|train| + k] == test[k];
    ProjectAppend(all, train, test);
    ProjectPairs(data, labels, train);
    ProjectPairs(data, labels, test);
  }

  /** A distinct list of the indices below `n` that are not training indices
      completes the training indices to a partition. */
  lemma ComplementPartitions(train: seq<nat>, test: seq<nat>, n: nat)
    requires Distinct(train) && AllBelow(train, n) && Distinct(test)
    requires forall x: nat :: x in test <==> x < n && x !in train
    ensures Partitions(train, test, n) && AllBelow(test, n)
  {
    assert forall k :: 0 <= k < |train| ==> train[k] in train;
    assert forall k :: 0 <= k < |test| ==> test[k] in test;
    forall i, j | 0 <= i < j < |train + test|
      ensures (train + test)[i] != (train + test)[j]
    {
      if i < |train| <= j {
        assert (train + test)[j] in test;
        assert (train + test)[i] in train;
      }
    }
  }

  /** `a.remove(x)`: defined only when `x` is in the set (Python raises
      KeyError otherwise); takes out exactly `x`. */
  function Remove(a: set<nat>, x: nat): (r: set<nat>)
    requires x in a
    ensures x !in r && r + {x} == a
    ensures |r| == |a| - 1
  {
    a - {x}
  }

  /** The set of all indices below `n` with every training index removed
      from it, one at a time. */
  method RemainingIndices(n: nat, trainInds: seq<nat>) returns (a: set<nat>)
    requires Distinct(trainInds) && AllBelow(trainInds, n)
    ensures forall x: nat :: x in a <==> x < n && x !in trainInds
    ensures |a| + |trainInds| == n
  {
    a := Range(n);
    RangeSize(n);
    for k := 0 to |trainInds|
      invariant forall x: nat :: x in a <==> x < n && x !in trainInds[..k]
      invariant |a| + k == n
    {
      var ind := trainInds[k];
      assert ind !in trainInds[..k];
      a := Remove(a, ind);
      assert trainInds[..k + 1] == trainInds[..k] + [ind];
    }
    assert trainInds[..|trainInds|] == trainInds;
  }

  /** split_data, with the training indices supplied. `testInds` is the list
      the remaining index set was turned into (its order is unspecified). */
  method SplitData<T, L>(data: seq<T>, labels: seq<L>, trainInds: seq<nat>)
      returns (trainPos: seq<T>, trainClasses: seq<L>, testPos: seq<T>, testClasses: seq<L>, ghost testInds: seq<nat>)
    requires |labels| <= |data|
    requires Distinct(trainInds) && AllBelow(trainInds, |labels|)
    ensures trainPos == Project(data, trainInds) && trainClasses == Project(labels, trainInds)
    ensures Partitions(trainInds, testInds, |labels|)
    ensures AllBelow(testInds, |labels|)
    ensures testPos == Project(data, testInds) && testClasses == Project(labels, testInds)
    ensures |trainPos| + |testPos| == |labels|
    ensures multiset(Pairs(trainPos, trainClasses)) + multiset(Pairs(testPos, testClasses))
         == multiset(Pairs(data[..|labels|], labels))
  {
    var n := |labels|;
    trainPos := Project(data, trainInds);
    trainClasses := Project(labels, trainInds);
    var a := RemainingIndices(n, trainInds);
    var inds := ListOfSet(a);
    testInds := inds;
    ComplementPartitions(trainInds, testInds, n);
    testPos := Project(data, inds);
    testClasses := Project(labels, inds);
    ProjectPrefix(data, trainInds, n);
    ProjectPrefix(data, testInds, n);
    NothingLostNothingDuplicated(data[..n], labels, trainInds, testInds);
  }
}
