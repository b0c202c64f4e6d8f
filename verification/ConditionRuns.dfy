/** Several operators merge their conditions into one list, in any order. */
module ConditionRuns {
  import opened Wrappers
  import opened Strings
  import opened Conditions

  // The conditions of one type in the list.
  function At(list: seq<Condition>, t: string): seq<Condition> {
    OfTypes(list, {t})
  }

  ghost predicate OnePerType(list: seq<Condition>) {
    forall t :: |At(list, t)| <= 1
  }

  predicate SlashFree(list: seq<Condition>) {
    forall i :: 0 <= i < |list| ==> '/' !in list[i].typ
  }

  /** One call of SetConditions or GetNewConditions. */
  datatype Merge = Merge(reports: seq<Condition>, evaluated: set<string>, now: seq<string>)

  // Distinct types, all of them evaluated, as every caller passes.
  ghost predicate WellFormed(m: Merge) {
    && |m.now| == |m.reports|
    && (forall i, j :: 0 <= i < j < |m.reports| ==> m.reports[i].typ != m.reports[j].typ)
    && (forall i :: 0 <= i < |m.reports| ==> m.reports[i].typ in m.evaluated && '/' !in m.reports[i].typ)
  }

  ghost predicate Applied(src: seq<Condition>, m: Merge, r: seq<Condition>) {
    WellFormed(m) && IsSortOf(r, Merged(src, m.reports, m.evaluated, m.now))
  }

  /******* A merge, type by type *******/

  function Head(list: seq<Condition>): Option<Condition> {
    if |list| == 0 then None else Some(list[0])
  }

  function ReportedAt(previous: Option<Condition>, reports: seq<Condition>, now: seq<string>, t: string): seq<Condition>
    requires |now| == |reports|
  {
    if |reports| == 0 then []
    else
      var last := |reports| - 1;
      ReportedAt(previous, reports[..last], now[..last], t)
      + (if reports[last].typ == t then [Refreshed(previous, reports[last], now[last])] else [])
  }

  // What a merge makes of the conditions of one type.
  function Effect(previous: seq<Condition>, m: Merge, t: string): seq<Condition>
    requires |m.now| == |m.reports|
  {
    (if t in m.evaluated then [] else previous) + ReportedAt(Head(previous), m.reports, m.now, t)
  }

  lemma {:induction false} FirstIsHead(list: seq<Condition>, t: string)
    ensures FirstOf(list, t) == Head(At(list, t))
  {
    if |list| > 0 && list[0].typ != t {
      FirstIsHead(list[1..], t);
      assert At(list, t) == At(list[1..], t);
    }
  }

  lemma {:induction false} AtConcat(a: seq<Condition>, b: seq<Condition>, t: string)
    ensures At(a + b, t) == At(a, t) + At(b, t)
  {
    if |a| == 0 {
      assert a + b == b;
    } else {
      assert (a + b)[1..] == a[1..] + b;
      AtConcat(a[1..], b, t);
    }
  }

  lemma {:induction false} AtWithout(list: seq<Condition>, evaluated: set<string>, t: string)
    ensures At(WithoutTypes(list, evaluated), t) == if t in evaluated then [] else At(list, t)
  {
    if |list| > 0 {
      AtWithout(list[1..], evaluated, t);
      var head := if list[0].typ in evaluated then [] else [list[0]];
      AtConcat(head, WithoutTypes(list[1..], evaluated), t);
    }
  }

  lemma AtOne(x: Condition, t: string)
    ensures At([x], t) == if x.typ == t then [x] else []
  {
    var none: seq<Condition> := [];
    assert [x][1..] == none && OfTypes(none, {t}) == [];
  }

  lemma {:induction false} AtReported(src: seq<Condition>, reports: seq<Condition>, now: seq<string>, t: string)
    requires |now| == |reports|
    ensures At(Reported(src, reports, now), t) == ReportedAt(Head(At(src, t)), reports, now, t)
    decreases |reports|
  {
    if |reports| > 0 {
      var last := |reports| - 1;
      AtReported(src, reports[..last], now[..last], t);
      FirstIsHead(src, t);
      var x := Refreshed(FirstOf(src, reports[last].typ), reports[last], now[last]);
      AtOne(x, t);
      AtConcat(Reported(src, reports[..last], now[..last]), [x], t);
    }
  }

  lemma {:induction false} ReportedAtMostOnce(previous: Option<Condition>, reports: seq<Condition>,
                                              now: seq<string>, t: string)
    requires |now| == |reports|
    requires forall i, j :: 0 <= i < j < |reports| ==> reports[i].typ != reports[j].typ
    ensures |ReportedAt(previous, reports, now, t)| <= 1
    ensures (forall i :: 0 <= i < |reports| ==> reports[i].typ != t) ==> ReportedAt(previous, reports, now, t) == []
    decreases |reports|
  {
    if |reports| > 0 {
      ReportedAtMostOnce(previous, reports[..|reports| - 1], now[..|reports| - 1], t);
    }
  }

  lemma PermutedShort(a: seq<Condition>, b: seq<Condition>)
    requires multiset(a) == multiset(b) && |b| <= 1
    ensures a == b
  {
    assert |a| == |multiset(a)| == |multiset(b)| == |b|;
    if |b| == 1 {
      assert b == [b[0]];
      SingletonPermuted(a, b[0]);
    }
  }

  /** A merge acts on each type by itself, whatever sort is used: the conditions of an
      evaluated type give way to the reported one, and the others stay. */
  lemma MergeByType(src: seq<Condition>, m: Merge, r: seq<Condition>, t: string)
    requires OnePerType(src) && Applied(src, m, r)
    ensures At(r, t) == Effect(At(src, t), m, t) && |At(r, t)| <= 1
    ensures t !in m.evaluated ==> At(r, t) == At(src, t)
  {
    var merged := Merged(src, m.reports, m.evaluated, m.now);
    AtConcat(WithoutTypes(src, m.evaluated), Reported(src, m.reports, m.now), t);
    AtWithout(src, m.evaluated, t);
    AtReported(src, m.reports, m.now, t);
    ReportedAtMostOnce(Head(At(src, t)), m.reports, m.now, t);
    OfTypesPermuted(r, merged, {t});
    PermutedShort(At(r, t), At(merged, t));
  }

  lemma {:induction false} AtTypes(list: seq<Condition>, t: string)
    ensures forall x :: x in At(list, t) <==> x in list && x.typ == t
  {
    if |list| > 0 { AtTypes(list[1..], t); }
  }

  /** The stored condition is the reported one at the time of the merge; only its
      observed generation may be the older one. */
  lemma FilterThenReplace(src: seq<Condition>, c: Condition, now: string, r: seq<Condition>)
    requires '/' !in c.typ && Applied(src, Merge([c], {c.typ}, [now]), r)
    ensures |At(r, c.typ)| == 1
    ensures At(r, c.typ)[0].(generation := 0) == c.(time := now, generation := 0)
  {
    OneOfItsType(src, c, now, r);
  }

  lemma MergeKeepsShape(src: seq<Condition>, m: Merge, r: seq<Condition>)
    requires OnePerType(src) && SlashFree(src) && Applied(src, m, r)
    ensures OnePerType(r) && SlashFree(r)
  {
    forall t ensures |At(r, t)| <= 1 { MergeByType(src, m, r, t); }
    forall i | 0 <= i < |r| ensures '/' !in r[i].typ {
      var t := r[i].typ;
      AtTypes(r, t);
      AtTypes(src, t);
      MergeByType(src, m, r, t);
      if forall k :: 0 <= k < |m.reports| ==> m.reports[k].typ != t {
        ReportedAtMostOnce(Head(At(src, t)), m.reports, m.now, t);
        assert r[i] in At(r, t);
        assert At(src, t) != [];
        assert At(src, t)[0] in src;
      }
    }
  }

  /******* A sorted list is determined by its conditions *******/

  lemma KeyGivesType(a: Condition, b: Condition)
    requires '/' !in a.typ && '/' !in b.typ && Key(a) == Key(b)
    ensures a.typ == b.typ
  {
    var x, y := a.message + "/" + a.time, b.message + "/" + b.time;
    assert Key(a) == a.typ + ['/'] + x && Key(b) == b.typ + ['/'] + y;
    JoinUnique(a.typ, x, b.typ, y, '/');
  }

  lemma OnlyOne(list: seq<Condition>, i: nat, j: nat)
    requires OnePerType(list) && i < j < |list|
    ensures list[i].typ != list[j].typ
  {
    var x, y, t := list[i], list[j], list[i].typ;
    var a, b := list[..j], list[j..];
    assert list == a + b && a[i] == x && b[0] == y;
    assert x in a && y in b;
    AtConcat(a, b, t);
    AtTypes(a, t);
    AtTypes(b, t);
    assert x in At(a, t);
    assert y.typ == t ==> y in At(b, t);
  }

  lemma SameFirstElement(a: seq<Condition>, b: seq<Condition>)
    requires Sorted(a) && Sorted(b) && OnePerType(a) && SlashFree(a) && SlashFree(b)
    requires a != [] && b != [] && (forall x :: x in a <==> x in b)
    ensures a[0] == b[0]
  {
    assert a[0] in b && b[0] in a;
    var i :| 0 <= i < |a| && a[i] == b[0];
    var j :| 0 <= j < |b| && b[j] == a[0];
    if i > 0 && j > 0 {
      LessTotal(Key(a[0]), Key(b[0]));
      KeyGivesType(a[0], b[0]);
      OnlyOne(a, 0, i);
    }
  }

  lemma TailShape(a: seq<Condition>)
    requires a != [] && OnePerType(a)
    ensures OnePerType(a[1..]) && forall x :: x in a[1..] <==> x in a && x != a[0]
  {
    assert a == [a[0]] + a[1..];
    forall t ensures |At(a[1..], t)| <= 1 {
      AtConcat([a[0]], a[1..], t);
      assert |At(a, t)| <= 1;
    }
    forall x | x in a[1..] ensures x != a[0] {
      var i :| 0 <= i < |a[1..]| && a[1..][i] == x;
      OnlyOne(a, 0, i + 1);
    }
  }

  lemma {:induction false} Canonical(a: seq<Condition>, b: seq<Condition>)
    requires Sorted(a) && Sorted(b) && OnePerType(a) && OnePerType(b) && SlashFree(a) && SlashFree(b)
    requires forall x :: x in a <==> x in b
    ensures a == b
    decreases |a|
  {
    assert a != [] ==> a[0] in a && a[0] in b;
    assert b != [] ==> b[0] in b && b[0] in a;
    if a != [] {
      SameFirstElement(a, b);
      TailShape(a);
      TailShape(b);
      Canonical(a[1..], b[1..]);
      assert a == [a[0]] + a[1..] && b == [b[0]] + b[1..];
    }
  }

  lemma SameByType(a: seq<Condition>, b: seq<Condition>)
    requires Sorted(a) && Sorted(b) && OnePerType(a) && OnePerType(b) && SlashFree(a) && SlashFree(b)
    requires forall t :: At(a, t) == At(b, t)
    ensures a == b
  {
    forall x ensures x in a <==> x in b {
      AtTypes(a, x.typ);
      AtTypes(b, x.typ);
      assert At(a, x.typ) == At(b, x.typ);
    }
    Canonical(a, b);
  }

  /******* Runs *******/

  /** Merges of disjoint types commute, with any correct sort at each of them. */
  lemma MergesCommute(src: seq<Condition>, m1: Merge, m2: Merge,
                      r1: seq<Condition>, r12: seq<Condition>, r2: seq<Condition>, r21: seq<Condition>)
    requires OnePerType(src) && SlashFree(src) && m1.evaluated !! m2.evaluated
    requires Applied(src, m1, r1) && Applied(r1, m2, r12)
    requires Applied(src, m2, r2) && Applied(r2, m1, r21)
    ensures r12 == r21
  {
    MergeKeepsShape(src, m1, r1);
    MergeKeepsShape(src, m2, r2);
    MergeKeepsShape(r1, m2, r12);
    MergeKeepsShape(r2, m1, r21);
    forall t ensures At(r12, t) == At(r21, t) {
      MergeByType(src, m1, r1, t);
      MergeByType(r1, m2, r12, t);
      MergeByType(src, m2, r2, t);
      MergeByType(r2, m1, r21, t);
    }
    SameByType(r12, r21);
  }

  ghost predicate Reaches(src: seq<Condition>, run: seq<Merge>, r: seq<Condition>)
    decreases |run|
  {
    if |run| == 0 then r == src
    else exists mid :: Applied(src, run[0], mid) && Reaches(mid, run[1..], r)
  }

  // The merges of the run that evaluate the type.
  function Touching(run: seq<Merge>, t: string): seq<Merge> {
    if |run| == 0 then []
    else (if t in run[0].evaluated then [run[0]] else []) + Touching(run[1..], t)
  }

  ghost function RunEffect(previous: seq<Condition>, run: seq<Merge>, t: string): seq<Condition>
    requires forall m :: m in run ==> WellFormed(m)
    decreases |run|
  {
    if |run| == 0 then previous else assert WellFormed(run[0]); RunEffect(Effect(previous, run[0], t), run[1..], t)
  }

  lemma {:induction false} TouchingFrom(run: seq<Merge>, t: string)
    requires forall m :: m in run ==> WellFormed(m)
    ensures forall m :: m in Touching(run, t) ==> WellFormed(m)
  {
    if |run| > 0 { TouchingFrom(run[1..], t); }
  }

  lemma {:induction false} OnlyTouchingMatters(previous: seq<Condition>, run: seq<Merge>, t: string)
    requires forall m :: m in run ==> WellFormed(m)
    ensures forall m :: m in Touching(run, t) ==> WellFormed(m)
    ensures RunEffect(previous, run, t) == RunEffect(previous, Touching(run, t), t)
    decreases |run|
  {
    TouchingFrom(run, t);
    if |run| > 0 {
      assert WellFormed(run[0]);
      OnlyTouchingMatters(Effect(previous, run[0], t), run[1..], t);
      if t in run[0].evaluated {
        assert Touching(run, t)[1..] == Touching(run[1..], t);
      } else {
        ReportedAtMostOnce(Head(previous), run[0].reports, run[0].now, t);
        assert Effect(previous, run[0], t) == previous;
        assert Touching(run, t) == Touching(run[1..], t);
      }
    }
  }

  lemma {:induction false} RunByType(src: seq<Condition>, run: seq<Merge>, r: seq<Condition>)
    requires OnePerType(src) && SlashFree(src) && Reaches(src, run, r)
    ensures OnePerType(r) && SlashFree(r) && (|run| > 0 ==> Sorted(r))
    ensures forall m :: m in run ==> WellFormed(m)
    ensures forall t :: At(r, t) == RunEffect(At(src, t), run, t)
    decreases |run|
  {
    if |run| > 0 {
      var mid :| Applied(src, run[0], mid) && Reaches(mid, run[1..], r);
      MergeKeepsShape(src, run[0], mid);
      RunByType(mid, run[1..], r);
      forall t ensures At(r, t) == RunEffect(At(src, t), run, t) {
        MergeByType(src, run[0], mid, t);
      }
    }
  }

  /** Two runs that merge, for every type, the same reports of it in the same order end
      in the same list, however the operators' merges interleave and whatever correct
      sort runs at each of them. */
  lemma InterleavingIrrelevant(src: seq<Condition>, run1: seq<Merge>, run2: seq<Merge>, r1: seq<Condition>,
                               r2: seq<Condition>)
    requires OnePerType(src) && SlashFree(src) && Reaches(src, run1, r1) && Reaches(src, run2, r2)
    requires run1 != [] && run2 != [] && forall t :: Touching(run1, t) == Touching(run2, t)
    ensures r1 == r2
  {
    RunByType(src, run1, r1);
    RunByType(src, run2, r2);
    forall t ensures At(r1, t) == At(r2, t) {
      OnlyTouchingMatters(At(src, t), run1, t);
      OnlyTouchingMatters(At(src, t), run2, t);
    }
    SameByType(r1, r2);
  }
}
