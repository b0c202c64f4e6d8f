/** What a merge of conditions leaves in the list, told by the conditions' fields. */
module ConditionMeanings {
  import opened Wrappers
  import opened Strings
  import opened Conditions
  import opened ConditionRuns
  import opened Selections

  lemma {:induction false} OthersSelected(list: seq<Condition>, evaluated: set<string>)
    ensures Selects(list, WithoutTypes(list, evaluated), (c: Condition) => c.typ !in evaluated)
  {
    if |list| == 0 {
      SelectsNothing<Condition>((c: Condition) => c.typ !in evaluated);
    } else {
      OthersSelected(list[1..], evaluated);
      SelectsCons(list[1..], WithoutTypes(list[1..], evaluated), list[0], (c: Condition) => c.typ !in evaluated);
      assert list == [list[0]] + list[1..];
    }
  }

  /** GetConditions gives the conditions of the types, in order and as often as they come. */
  lemma {:induction false} TypesSelected(list: seq<Condition>, types: set<string>)
    ensures Selects(list, OfTypes(list, types), (c: Condition) => c.typ in types)
  {
    if |list| == 0 {
      SelectsNothing<Condition>((c: Condition) => c.typ in types);
    } else {
      TypesSelected(list[1..], types);
      SelectsCons(list[1..], OfTypes(list[1..], types), list[0], (c: Condition) => c.typ in types);
      assert list == [list[0]] + list[1..];
    }
  }

  // The condition that is stored for a report: the report at the time of the merge, or, if
  // the first stored condition of its type says the same, that one with the new time.
  predicate StoredFor(src: seq<Condition>, c: Condition, now: string, x: Condition) {
    && x.typ == c.typ && x.status == c.status && x.reason == c.reason && x.message == c.message && x.time == now
    && (exists i :: 0 <= i < |src| && src[i].typ == c.typ && (forall j :: 0 <= j < i ==> src[j].typ != c.typ)
          && x.generation == if SaysSame(src[i], c) then src[i].generation else c.generation)
  }

  predicate SaysSame(a: Condition, b: Condition) {
    a.status == b.status && a.reason == b.reason && a.message == b.message
  }

  lemma RefreshedFields(src: seq<Condition>, c: Condition, now: string)
    ensures var x := Refreshed(FirstOf(src, c.typ), c, now);
      if exists k :: k in src && k.typ == c.typ then StoredFor(src, c, now, x) else x == c.(time := now)
  {
    var i := IndexOf(src, c.typ);
    if i >= 0 {
      assert src[i] in src && src[i].typ == c.typ;
    }
  }

  lemma {:induction false} ReportedPlaces(src: seq<Condition>, reports: seq<Condition>, now: seq<string>)
    requires |now| == |reports|
    ensures |Reported(src, reports, now)| == |reports|
    ensures forall i :: 0 <= i < |reports| ==>
      Reported(src, reports, now)[i] == Refreshed(FirstOf(src, reports[i].typ), reports[i], now[i])
    decreases |reports|
  {
    if |reports| > 0 {
      var last := |reports| - 1;
      ReportedPlaces(src, reports[..last], now[..last]);
    }
  }

  /** A merge leaves exactly the conditions of types that were not evaluated, as they were, and
      one for each report. */
  lemma MergedExactly(src: seq<Condition>, m: Merge, r: seq<Condition>, x: Condition)
    requires |m.now| == |m.reports| && IsSortOf(r, Merged(src, m.reports, m.evaluated, m.now))
    ensures x in r <==>
      || (x in src && x.typ !in m.evaluated)
      || exists i :: 0 <= i < |m.reports| && x == Refreshed(FirstOf(src, m.reports[i].typ), m.reports[i], m.now[i])
    ensures |r| == |WithoutTypes(src, m.evaluated)| + |m.reports|
  {
    SameMembers(r, Merged(src, m.reports, m.evaluated, m.now), x);
    OthersSelected(src, m.evaluated);
    SelectsMembers(src, WithoutTypes(src, m.evaluated), (c: Condition) => c.typ !in m.evaluated, x);
    ReportedMembers(src, m.reports, m.now, x);
  }

  lemma SameMembers(a: seq<Condition>, b: seq<Condition>, x: Condition)
    requires multiset(a) == multiset(b)
    ensures (x in a <==> x in b) && |a| == |b|
  {
    assert x in a <==> x in multiset(a);
    assert x in b <==> x in multiset(b);
    assert |multiset(a)| == |a| && |multiset(b)| == |b|;
  }

  lemma ReportedMembers(src: seq<Condition>, reports: seq<Condition>, now: seq<string>, x: Condition)
    requires |now| == |reports|
    ensures |Reported(src, reports, now)| == |reports|
    ensures x in Reported(src, reports, now) <==>
      exists i :: 0 <= i < |reports| && x == Refreshed(FirstOf(src, reports[i].typ), reports[i], now[i])
  {
    ReportedPlaces(src, reports, now);
    var reported := Reported(src, reports, now);
    if i :| 0 <= i < |reports| && x == Refreshed(FirstOf(src, reports[i].typ), reports[i], now[i]) {
      assert reported[i] == x;
    }
  }

  /******* The order of the list *******/

  // Go's order on strings: where they first differ, or the shorter one.
  ghost predicate Before(a: string, b: string) {
    exists k: nat :: k <= |a| && k < |b| && a[..k] == b[..k] && (k == |a| || a[k] < b[k])
  }

  lemma HeadsAgree(a: string, b: string, k: nat)
    requires 0 < k <= |a| && k <= |b| && a[..k] == b[..k]
    ensures a[0] == b[0]
  {
    assert a[..k][0] == a[0] && b[..k][0] == b[0];
  }

  lemma {:induction false} LessIsBefore(a: string, b: string)
    ensures Less(a, b) <==> Before(a, b)
  {
    if |a| == 0 || |b| == 0 || a[0] != b[0] {
      assert a[..0] == b[..0];
      if Before(a, b) {
        var k: nat :| k <= |a| && k < |b| && a[..k] == b[..k] && (k == |a| || a[k] < b[k]);
        if k > 0 { HeadsAgree(a, b, k); }
      }
    } else {
      LessIsBefore(a[1..], b[1..]);
      if Less(a, b) {
        var k: nat :| k <= |a[1..]| && k < |b[1..]| && a[1..][..k] == b[1..][..k]
          && (k == |a[1..]| || a[1..][k] < b[1..][k]);
        assert a[..k + 1] == [a[0]] + a[1..][..k] && b[..k + 1] == [b[0]] + b[1..][..k];
      }
      if Before(a, b) {
        var k: nat :| k <= |a| && k < |b| && a[..k] == b[..k] && (k == |a| || a[k] < b[k]);
        if k > 0 {
          assert a[1..][..k - 1] == a[..k][1..] && b[1..][..k - 1] == b[..k][1..];
        }
      }
    }
  }

  /** After a merge no condition comes before an earlier one in the order of type, message and
      time. */
  lemma ListInOrder(src: seq<Condition>, m: Merge, r: seq<Condition>, i: nat, j: nat)
    requires Applied(src, m, r) && i < j < |r|
    ensures !Before(r[j].typ + "/" + r[j].message + "/" + r[j].time, r[i].typ + "/" + r[i].message + "/" + r[i].time)
  {
    LessIsBefore(Key(r[j]), Key(r[i]));
  }

  /** After setStatus the list holds, of its type, one condition: False with the error's text
      after an error, True without a text otherwise, at the time of the call; and of other
      types what it held before. */
  lemma StatusFields(src: seq<Condition>, typ: string, reason: string, failure: Option<string>, now: string,
                     r: seq<Condition>)
    requires IsSortOf(r, Merged(src, [StatusCondition(typ, reason, failure)], {typ}, [now]))
    ensures exists x :: x in r && x.typ == typ
    ensures forall x :: x in r && x.typ == typ ==>
      && x.status == (if failure.Some? then "False" else "True") && x.reason == reason
      && x.message == (if failure.Some? then failure.value else "") && x.time == now
    ensures forall x: Condition :: x.typ != typ ==> (x in r <==> x in src)
    ensures |OfTypes(r, {typ})| == 1
  {
    var c := StatusCondition(typ, reason, failure);
    var m := Merge([c], {typ}, [now]);
    RefreshedFields(src, c, now);
    forall x ensures x in r <==> (x in src && x.typ != typ) || x == Refreshed(FirstOf(src, typ), c, now) {
      MergedExactly(src, m, r, x);
    }
    OneOfItsType(src, c, now, r);
  }
}
