/** What it means that a loop keeps some elements of a list and drops the others. */
module Selections {
  // `ys` holds the elements of `xs` that are to be kept, each of them once for each time it
  // is in `xs`, in the order of `xs`: `at` gives their places.
  ghost predicate SelectsAt<T(!new)>(xs: seq<T>, ys: seq<T>, keep: T -> bool, at: seq<nat>) {
    && |at| == |ys|
    && (forall i :: 0 <= i < |at| ==> at[i] < |xs| && ys[i] == xs[at[i]])
    && (forall i, j :: 0 <= i < j < |at| ==> at[i] < at[j])
    && (forall k :: 0 <= k < |xs| ==> (keep(xs[k]) <==> k in at))
  }

  ghost predicate Selects<T(!new)>(xs: seq<T>, ys: seq<T>, keep: T -> bool) {
    exists at: seq<nat> :: SelectsAt(xs, ys, keep, at)
  }

  lemma SelectsNothing<T(!new)>(keep: T -> bool)
    ensures Selects([], [], keep)
  {
    var none: seq<nat> := [];
    assert SelectsAt([], [], keep, none);
  }

  lemma SelectsEarlier<T(!new)>(xs: seq<T>, ys: seq<T>, x: T, keep: T -> bool, at: seq<nat>)
    requires SelectsAt(xs, ys, keep, at) && !keep(x)
    ensures SelectsAt(xs + [x], ys, keep, at)
  {
    forall k | 0 <= k < |xs + [x]| ensures keep((xs + [x])[k]) <==> k in at {
      if k < |xs| {
        assert (xs + [x])[k] == xs[k];
      }
    }
  }

  lemma SelectsAlso<T(!new)>(xs: seq<T>, ys: seq<T>, x: T, keep: T -> bool, at: seq<nat>)
    requires SelectsAt(xs, ys, keep, at) && keep(x)
    ensures SelectsAt(xs + [x], ys + [x], keep, at + [|xs|])
  {
    var at': seq<nat> := at + [|xs|];
    forall k | 0 <= k < |xs + [x]| ensures keep((xs + [x])[k]) <==> k in at' {
      if k < |xs| {
        assert (xs + [x])[k] == xs[k];
        assert k in at' <==> k in at;
      } else {
        assert at'[|at|] == k;
      }
    }
    forall i | 0 <= i < |at'| ensures at'[i] < |xs + [x]| && (ys + [x])[i] == (xs + [x])[at'[i]] {
      if i < |at| {
        assert at'[i] == at[i];
      }
    }
  }

  lemma SelectsSnoc<T(!new)>(xs: seq<T>, ys: seq<T>, x: T, keep: T -> bool)
    requires Selects(xs, ys, keep)
    ensures Selects(xs + [x], ys + (if keep(x) then [x] else []), keep)
  {
    var at: seq<nat> :| SelectsAt(xs, ys, keep, at);
    if keep(x) {
      SelectsAlso(xs, ys, x, keep, at);
    } else {
      SelectsEarlier(xs, ys, x, keep, at);
      assert ys + [] == ys;
    }
  }

  // The places in a list that starts with one more element.
  function Shifted(at: seq<nat>): seq<nat> {
    seq(|at|, i requires 0 <= i < |at| => at[i] + 1)
  }

  lemma ShiftedHas(at: seq<nat>, k: nat)
    ensures k in at <==> k + 1 in Shifted(at)
    ensures 0 !in Shifted(at)
  {
    if k in at {
      var i :| 0 <= i < |at| && at[i] == k;
      assert Shifted(at)[i] == k + 1;
    }
  }

  lemma SelectsDropped<T(!new)>(xs: seq<T>, ys: seq<T>, x: T, keep: T -> bool, at: seq<nat>)
    requires SelectsAt(xs, ys, keep, at) && !keep(x)
    ensures SelectsAt([x] + xs, ys, keep, Shifted(at))
  {
    forall k | 0 <= k < |[x] + xs| ensures keep(([x] + xs)[k]) <==> k in Shifted(at) {
      ShiftedHas(at, if k > 0 then k - 1 else 0);
      if k > 0 {
        assert ([x] + xs)[k] == xs[k - 1];
      }
    }
  }

  lemma SelectsKept<T(!new)>(xs: seq<T>, ys: seq<T>, x: T, keep: T -> bool, at: seq<nat>)
    requires SelectsAt(xs, ys, keep, at) && keep(x)
    ensures SelectsAt([x] + xs, [x] + ys, keep, [0] + Shifted(at))
  {
    var at' := [0 as nat] + Shifted(at);
    forall k | 0 <= k < |[x] + xs| ensures keep(([x] + xs)[k]) <==> k in at' {
      ShiftedHas(at, if k > 0 then k - 1 else 0);
      if k > 0 {
        assert ([x] + xs)[k] == xs[k - 1];
        assert k in at' <==> k in Shifted(at);
      } else {
        assert at'[0] == 0;
      }
    }
    forall i | 0 <= i < |at'| ensures at'[i] < |[x] + xs| && ([x] + ys)[i] == ([x] + xs)[at'[i]] {
      if i > 0 {
        assert at'[i] == at[i - 1] + 1;
      }
    }
  }

  lemma SelectsCons<T(!new)>(xs: seq<T>, ys: seq<T>, x: T, keep: T -> bool)
    requires Selects(xs, ys, keep)
    ensures Selects([x] + xs, (if keep(x) then [x] else []) + ys, keep)
  {
    var at: seq<nat> :| SelectsAt(xs, ys, keep, at);
    if keep(x) {
      SelectsKept(xs, ys, x, keep, at);
    } else {
      SelectsDropped(xs, ys, x, keep, at);
      assert [] + ys == ys;
    }
  }

  /** A selection has exactly the elements to be kept. */
  lemma SelectsMembers<T(!new)>(xs: seq<T>, ys: seq<T>, keep: T -> bool, x: T)
    requires Selects(xs, ys, keep)
    ensures x in ys <==> x in xs && keep(x)
  {
    var at: seq<nat> :| SelectsAt(xs, ys, keep, at);
    if x in xs && keep(x) {
      var k :| 0 <= k < |xs| && xs[k] == x;
      var i :| 0 <= i < |at| && at[i] == k;
      assert ys[i] == x;
    }
    if x in ys {
      var i :| 0 <= i < |ys| && ys[i] == x;
      assert at[i] in at;
    }
  }

  // The first element to be kept.
  ghost predicate IsFirst<T(!new)>(xs: seq<T>, i: nat, keep: T -> bool) {
    i < |xs| && keep(xs[i]) && forall j :: 0 <= j < i ==> !keep(xs[j])
  }

  // The only one.
  ghost predicate IsOnly<T(!new)>(xs: seq<T>, i: nat, keep: T -> bool) {
    i < |xs| && keep(xs[i]) && forall j :: 0 <= j < |xs| && j != i ==> !keep(xs[j])
  }

  lemma FirstPlace<T(!new)>(xs: seq<T>, ys: seq<T>, keep: T -> bool, at: seq<nat>)
    requires SelectsAt(xs, ys, keep, at) && |at| > 0
    ensures IsFirst(xs, at[0], keep)
  {
    assert at[0] in at;
    assert forall n :: 0 <= n < |at| ==> at[0] <= at[n];
    assert forall j: nat :: j < at[0] ==> j !in at;
  }

  lemma OnlyPlace<T(!new)>(xs: seq<T>, ys: seq<T>, keep: T -> bool, at: seq<nat>)
    requires SelectsAt(xs, ys, keep, at) && |at| > 0
    ensures |at| == 1 <==> IsOnly(xs, at[0], keep)
  {
    assert at[0] in at;
    if |at| > 1 {
      assert at[1] in at && at[0] < at[1];
    } else {
      assert at == [at[0]];
    }
  }

  /** A selection starts with the first element to be kept, and has no other iff that is the
      only one. */
  lemma FirstSelected<T(!new)>(xs: seq<T>, ys: seq<T>, keep: T -> bool) returns (i: nat)
    requires Selects(xs, ys, keep) && |ys| > 0
    ensures IsFirst(xs, i, keep) && xs[i] == ys[0]
    ensures |ys| == 1 <==> IsOnly(xs, i, keep)
  {
    var at: seq<nat> :| SelectsAt(xs, ys, keep, at);
    FirstPlace(xs, ys, keep, at);
    OnlyPlace(xs, ys, keep, at);
    i := at[0];
  }
}
