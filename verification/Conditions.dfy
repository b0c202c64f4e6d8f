/** The merge of status conditions that several operators apply to one list. */
module Conditions {
  import opened Wrappers
  import opened Strings

  /** A status condition; `time` is its LastTransitionTime as the sort key prints it. */
  datatype Condition = Condition(
    typ: string, status: string, reason: string, message: string, time: string, generation: int)

  function Key(c: Condition): string {
    c.typ + "/" + c.message + "/" + c.time
  }

  function IndexOf(list: seq<Condition>, t: string): (i: int)
    ensures -1 <= i < |list|
    ensures i >= 0 ==> list[i].typ == t
    ensures forall j :: 0 <= j < (if i < 0 then |list| else i) ==> list[j].typ != t
  {
    if |list| == 0 then -1
    else if list[0].typ == t then 0
    else
      var i := IndexOf(list[1..], t);
      if i < 0 then -1 else i + 1
  }

  function WithoutTypes(list: seq<Condition>, evaluated: set<string>): seq<Condition> {
    if |list| == 0 then []
    else (if list[0].typ in evaluated then [] else [list[0]]) + WithoutTypes(list[1..], evaluated)
  }

  function OfTypes(list: seq<Condition>, types: set<string>): seq<Condition> {
    if |list| == 0 then []
    else (if list[0].typ in types then [list[0]] else []) + OfTypes(list[1..], types)
  }

  // The condition stored for a reported one: an equal stored one keeps its generation.
  function Refreshed(previous: Option<Condition>, c: Condition, now: string): Condition {
    if previous.Some? && previous.value.message == c.message && previous.value.status == c.status
       && previous.value.reason == c.reason
    then previous.value.(time := now)
    else c.(time := now)
  }

  function FirstOf(list: seq<Condition>, t: string): Option<Condition> {
    var i := IndexOf(list, t);
    if i < 0 then None else Some(list[i])
  }

  // The reported conditions as they are stored; `now` holds the clock at each of them.
  function Reported(src: seq<Condition>, conditions: seq<Condition>, now: seq<string>): seq<Condition>
    requires |now| == |conditions|
  {
    if |conditions| == 0 then []
    else
      var last := |conditions| - 1;
      Reported(src, conditions[..last], now[..last])
      + [Refreshed(FirstOf(src, conditions[last].typ), conditions[last], now[last])]
  }

  // The merged list before it is sorted.
  function Merged(src: seq<Condition>, conditions: seq<Condition>, evaluated: set<string>, now: seq<string>)
    : seq<Condition>
    requires |now| == |conditions|
  {
    WithoutTypes(src, evaluated) + Reported(src, conditions, now)
  }

  // Sorted by the comparison the code hands to sort.Slice.
  predicate Sorted(list: seq<Condition>) {
    forall i, j :: 0 <= i < j < |list| ==> !Less(Key(list[j]), Key(list[i]))
  }

  // What any correct sort makes of the list.
  ghost predicate IsSortOf(sorted: seq<Condition>, list: seq<Condition>) {
    Sorted(sorted) && multiset(sorted) == multiset(list)
  }

  /******* A sort, standing for the library's *******/

  lemma NotLessTransitive(a: string, b: string, c: string)
    requires !Less(b, a) && !Less(c, b)
    ensures !Less(c, a)
  {
    LessTotal(a, b);
    LessTotal(b, c);
    LessTotal(a, c);
    if Less(c, a) {
      if a != b { LessTransitive(c, a, b); }
    }
  }

  method Insert(sorted: seq<Condition>, c: Condition) returns (r: seq<Condition>)
    requires Sorted(sorted)
    ensures Sorted(r) && multiset(r) == multiset(sorted) + multiset{c}
  {
    var i := 0;
    while i < |sorted| && !Less(Key(c), Key(sorted[i]))
      invariant 0 <= i <= |sorted|
      invariant forall j :: 0 <= j < i ==> !Less(Key(c), Key(sorted[j]))
    {
      i := i + 1;
    }
    r := sorted[..i] + [c] + sorted[i..];
    assert sorted == sorted[..i] + sorted[i..];
    forall j | i <= j < |sorted| ensures !Less(Key(sorted[j]), Key(c)) {
      LessAsymmetric(Key(sorted[i]), Key(c));
      if i < j { NotLessTransitive(Key(c), Key(sorted[i]), Key(sorted[j])); }
    }
  }

  method SortByKey(list: seq<Condition>) returns (r: seq<Condition>)
    ensures IsSortOf(r, list)
  {
    r := [];
    for i := 0 to |list|
      invariant IsSortOf(r, list[..i])
    {
      assert list[..i + 1] == list[..i] + [list[i]];
      r := Insert(r, list[i]);
    }
    assert list[..|list|] == list;
  }

  /******* The status object *******/

  class ClusterStatus {
    var conditions: seq<Condition>
    var lastSuccess: Option<string>   // MgtAuthStatus, by its LastSuccessTime

    constructor ()
      ensures conditions == [] && lastSuccess == None
    {
      conditions, lastSuccess := [], None;
    }

    // The conditions that the report leaves alone.
    method KeepOthers(evaluated: set<string>) returns (app: seq<Condition>)
      ensures app == WithoutTypes(conditions, evaluated)
    {
      app := [];
      for i := 0 to |conditions|
        invariant app == WithoutTypes(conditions[..i], evaluated)
      {
        WithoutTypesSnoc(conditions[..i], conditions[i], evaluated);
        assert conditions[..i + 1] == conditions[..i] + [conditions[i]];
        if conditions[i].typ !in evaluated {
          app := app + [conditions[i]];
        }
      }
      assert conditions[..|conditions|] == conditions;
    }

    // One reported condition; an equal stored one gets its new time in place.
    method Refresh(c: Condition, now: string, ghost src: seq<Condition>) returns (r: Condition)
      requires SameButTimes(src, conditions)
      modifies this`conditions
      ensures r == Refreshed(FirstOf(src, c.typ), c, now) && SameButTimes(src, conditions)
    {
      SameFirst(src, conditions, c, now);
      var eci := IndexOf(conditions, c.typ);
      if eci >= 0 && conditions[eci].message == c.message && conditions[eci].status == c.status
         && conditions[eci].reason == c.reason {
        conditions := conditions[eci := conditions[eci].(time := now)];
        return conditions[eci];
      }
      return c.(time := now);
    }

    method SetConditions(reports: seq<Condition>, evaluated: set<string>, now: seq<string>)
      requires |now| == |reports|
      modifies this`conditions
      ensures IsSortOf(conditions, Merged(old(conditions), reports, evaluated, now))
    {
      var app := KeepOthers(evaluated);
      ghost var src, kept := conditions, app;
      for i := 0 to |reports|
        invariant SameButTimes(src, conditions)
        invariant app == kept + Reported(src, reports[..i], now[..i])
      {
        assert reports[..i + 1][..i] == reports[..i] && now[..i + 1][..i] == now[..i];
        var condition := Refresh(reports[i], now[i], src);
        app := app + [condition];
      }
      assert reports[..|reports|] == reports && now[..|now|] == now;
      conditions := SortByKey(app);
    }

    method GetConditions(types: set<string>) returns (r: seq<Condition>)
      ensures r == OfTypes(conditions, types)
    {
      r := [];
      for i := 0 to |conditions|
        invariant r == OfTypes(conditions[..i], types)
      {
        OfTypesSnoc(conditions[..i], conditions[i], types);
        assert conditions[..i + 1] == conditions[..i] + [conditions[i]];
        if conditions[i].typ in types {
          r := r + [conditions[i]];
        }
      }
      assert conditions[..|conditions|] == conditions;
    }

    /** setStatus of the cluster operator: the guard on the number of conditions found
        always holds, so a success is recorded with the time of its condition. */
    method SetStatus(typ: string, reason: string, failure: Option<string>, result: bool, now: string)
      modifies this
      ensures IsSortOf(conditions, Merged(old(conditions),
        [StatusCondition(typ, reason, failure)], {typ}, [now]))
      ensures lastSuccess == if failure.None? && result then Some(now) else old(lastSuccess)
    {
      var report := StatusCondition(typ, reason, failure);
      SetConditions([report], {typ}, [now]);
      if failure.None? && result {
        OneOfItsType(old(conditions), report, now, conditions);
        var found := GetConditions({typ});
        lastSuccess := Some("");
        if |found| == 1 {
          lastSuccess := Some(found[0].time);
        }
      }
    }
  }

  function StatusCondition(typ: string, reason: string, failure: Option<string>): Condition {
    match failure
    case Some(message) => Condition(typ, "False", reason, message, "", 0)
    case None => Condition(typ, "True", reason, "", "", 0)
  }

  lemma {:induction false} WithoutTypesSnoc(list: seq<Condition>, c: Condition, evaluated: set<string>)
    ensures WithoutTypes(list + [c], evaluated) ==
      WithoutTypes(list, evaluated) + (if c.typ in evaluated then [] else [c])
  {
    if |list| > 0 {
      assert (list + [c])[1..] == list[1..] + [c];
      WithoutTypesSnoc(list[1..], c, evaluated);
    }
  }

  lemma {:induction false} OfTypesSnoc(list: seq<Condition>, c: Condition, types: set<string>)
    ensures OfTypes(list + [c], types) == OfTypes(list, types) + (if c.typ in types then [c] else [])
  {
    if |list| > 0 {
      assert (list + [c])[1..] == list[1..] + [c];
      OfTypesSnoc(list[1..], c, types);
    }
  }

  // The in-place updates change nothing but times.
  predicate SameButTimes(a: seq<Condition>, b: seq<Condition>) {
    |a| == |b| && forall i :: 0 <= i < |a| ==> a[i].(time := "") == b[i].(time := "")
  }

  lemma SameFirst(a: seq<Condition>, b: seq<Condition>, c: Condition, now: string)
    requires SameButTimes(a, b)
    ensures IndexOf(a, c.typ) == IndexOf(b, c.typ)
    ensures Refreshed(FirstOf(a, c.typ), c, now) == Refreshed(FirstOf(b, c.typ), c, now)
  {
    var i := IndexOf(a, c.typ);
    assert forall k :: 0 <= k < |a| ==> a[k].typ == a[k].(time := "").typ == b[k].(time := "").typ == b[k].typ;
    if i >= 0 {
      assert a[i].(time := now) == a[i].(time := "").(time := now) == b[i].(time := "").(time := now);
      assert a[i].(time := "").message == b[i].(time := "").message;
      assert a[i].(time := "").status == b[i].(time := "").status;
      assert a[i].(time := "").reason == b[i].(time := "").reason;
    }
  }

  lemma {:induction false} OfTypesCount(list: seq<Condition>, types: set<string>, x: Condition)
    ensures multiset(OfTypes(list, types))[x] == if x.typ in types then multiset(list)[x] else 0
  {
    if |list| > 0 {
      assert list == [list[0]] + list[1..];
      OfTypesCount(list[1..], types, x);
    }
  }

  lemma OfTypesPermuted(a: seq<Condition>, b: seq<Condition>, types: set<string>)
    requires multiset(a) == multiset(b)
    ensures multiset(OfTypes(a, types)) == multiset(OfTypes(b, types))
  {
    forall x ensures multiset(OfTypes(a, types))[x] == multiset(OfTypes(b, types))[x] {
      OfTypesCount(a, types, x);
      OfTypesCount(b, types, x);
    }
  }

  lemma {:induction false} NoneOfRemoved(list: seq<Condition>, types: set<string>)
    ensures OfTypes(WithoutTypes(list, types), types) == []
  {
    if |list| > 0 {
      NoneOfRemoved(list[1..], types);
      var rest := WithoutTypes(list[1..], types);
      assert [] + rest == rest && ([list[0]] + rest)[1..] == rest;
    }
  }

  lemma SingletonPermuted(a: seq<Condition>, x: Condition)
    requires multiset(a) == multiset{x}
    ensures a == [x]
  {
    assert |a| == |multiset(a)| == 1;
    assert a[0] in multiset(a) && a[0] in multiset{x};
    assert a == [a[0]];
  }

  /** Once merged, a reported condition is the only one of its type, whatever the list
      held before, and carries the time of the merge. */
  lemma OneOfItsType(src: seq<Condition>, c: Condition, now: string, sorted: seq<Condition>)
    requires IsSortOf(sorted, Merged(src, [c], {c.typ}, [now]))
    ensures OfTypes(sorted, {c.typ}) == [Refreshed(FirstOf(src, c.typ), c, now)]
  {
    var merged := Merged(src, [c], {c.typ}, [now]);
    var x := Refreshed(FirstOf(src, c.typ), c, now);
    assert [c][..0] == [] && [now][..0] == [];
    assert Reported(src, [c], [now]) == [x];
    OfTypesSnoc(WithoutTypes(src, {c.typ}), x, {c.typ});
    NoneOfRemoved(src, {c.typ});
    assert OfTypes(merged, {c.typ}) == [x];
    OfTypesPermuted(sorted, merged, {c.typ});
    SingletonPermuted(OfTypes(sorted, {c.typ}), x);
  }
}
