/** A validated pipeline runtime, without its illegal event sources, validates cleanly. */
module Revalidation {
  import opened Wrappers
  import opened Resources
  import opened PipelineChecks
  import opened NamespaceUsage
  import opened PipelineValidate

  /******* What the filter keeps *******/

  lemma {:induction false} KeptSource(sources: seq<EventSource>, illegal: set<string>, e: EventSource)
    ensures e in KeepSources(sources, illegal) <==> e in sources && e.name !in illegal
    decreases |sources|
  {
    if |sources| > 0 {
      var rest, last := sources[..|sources| - 1], sources[|sources| - 1];
      KeptSource(rest, illegal, e);
      assert sources == rest + [last];
    }
  }

  lemma {:induction false} KeptTrigger(triggers: seq<PipelineTrigger>, illegal: set<string>, t: PipelineTrigger)
    ensures t in KeepTriggers(triggers, illegal) <==> t in triggers && t.eventSource !in illegal
    decreases |triggers|
  {
    if |triggers| > 0 {
      var rest, last := triggers[..|triggers| - 1], triggers[|triggers| - 1];
      KeptTrigger(rest, illegal, t);
      assert triggers == rest + [last];
    }
  }

  lemma NamesMeaning(sources: seq<EventSource>, n: string)
    ensures n in SourceNames(sources) <==> exists e :: e in sources && e.name == n
  {
    if n in SourceNames(sources) {
      var i :| 0 <= i < |sources| && SourceNames(sources)[i] == n;
      assert sources[i] in sources && sources[i].name == n;
    }
    if e :| e in sources && e.name == n {
      var i :| 0 <= i < |sources| && sources[i] == e;
      assert SourceNames(sources)[i] == n;
    }
  }

  lemma TagsMeaning(triggers: seq<PipelineTrigger>, tag: string)
    ensures tag in Tags(triggers) <==> exists t :: t in triggers && Tag(t) == tag
  {
    if tag in Tags(triggers) {
      var i :| 0 <= i < |triggers| && Tags(triggers)[i] == tag;
      assert triggers[i] in triggers && Tag(triggers[i]) == tag;
    }
    if t :| t in triggers && Tag(t) == tag {
      var i :| 0 <= i < |triggers| && triggers[i] == t;
      assert Tags(triggers)[i] == tag;
    }
  }

  lemma {:induction false} KeptNames(sources: seq<EventSource>, illegal: set<string>)
    requires Distinct(SourceNames(sources))
    ensures Distinct(SourceNames(KeepSources(sources, illegal)))
    decreases |sources|
  {
    if |sources| > 0 {
      var rest, last := sources[..|sources| - 1], sources[|sources| - 1];
      assert SourceNames(rest) == SourceNames(sources)[..|rest|];
      assert SourceNames(sources) == SourceNames(rest) + [last.name];
      KeptNames(rest, illegal);
      var kept := KeepSources(rest, illegal);
      NamesMeaning(rest, last.name);
      NamesMeaning(kept, last.name);
      forall e ensures e in kept ==> e in rest { KeptSource(rest, illegal, e); }
      DistinctSnoc(SourceNames(rest), last.name);
      DistinctSnoc(SourceNames(kept), last.name);
      assert SourceNames(kept + [last]) == SourceNames(kept) + [last.name];
      assert kept + [] == kept;
    }
  }

  lemma {:induction false} KeptTags(triggers: seq<PipelineTrigger>, illegal: set<string>)
    requires Distinct(Tags(triggers))
    ensures Distinct(Tags(KeepTriggers(triggers, illegal)))
    decreases |triggers|
  {
    if |triggers| > 0 {
      var rest, last := triggers[..|triggers| - 1], triggers[|triggers| - 1];
      assert Tags(rest) == Tags(triggers)[..|rest|];
      assert Tags(triggers) == Tags(rest) + [Tag(last)];
      KeptTags(rest, illegal);
      var kept := KeepTriggers(rest, illegal);
      TagsMeaning(rest, Tag(last));
      TagsMeaning(kept, Tag(last));
      forall t ensures t in kept ==> t in rest { KeptTrigger(rest, illegal, t); }
      DistinctSnoc(Tags(rest), Tag(last));
      DistinctSnoc(Tags(kept), Tag(last));
      assert Tags(kept + [last]) == Tags(kept) + [Tag(last)];
      assert kept + [] == kept;
    }
  }

  /** The filter keeps exactly the legal sources and the triggers that name one. */
  lemma FilterExact(cl: Client, r: PipelineRuntime, e: EventSource, t: PipelineTrigger)
    requires Verdict(cl, r).Ok?
    ensures var illegal := Verdict(cl, r).value;
      var r' := WithoutIllegal(r, illegal);
      && (e in r'.spec.eventSources <==> e in r.spec.eventSources && e !in illegal)
      && (t in r'.spec.triggers <==>
            t in r.spec.triggers && exists s :: s in r'.spec.eventSources && s.name == t.eventSource)
  {
    var illegal := Verdict(cl, r).value;
    var r' := WithoutIllegal(r, illegal);
    Kept(cl, r, e);
    UniqueByName(r.spec);
    if t in r.spec.triggers {
      assert NamesOk(r.spec, t);
      NamesMeaning(r.spec.eventSources, t.eventSource);
      var s :| s in r.spec.eventSources && s.name == t.eventSource;
      Kept(cl, r, s);
      forall s' | s' in r'.spec.eventSources && s'.name == t.eventSource ensures s' == s {
        Kept(cl, r, s');
      }
    }
    if |illegal| > 0 {
      KeptTrigger(r.spec.triggers, Names(illegal), t);
    }
  }

  // A source is kept iff it is legal, which is iff its name is not an illegal one.
  lemma Kept(cl: Client, r: PipelineRuntime, e: EventSource)
    requires Verdict(cl, r).Ok?
    ensures var illegal := Verdict(cl, r).value;
      && (e in WithoutIllegal(r, illegal).spec.eventSources <==> e in r.spec.eventSources && e !in illegal)
      && (e in r.spec.eventSources ==> (e in illegal <==> e.name in Names(illegal)))
      && (e in illegal <==> e in r.spec.eventSources && SourceIllegal(cl, r.namespace, r.spec.project, e))
  {
    var illegal := Verdict(cl, r).value;
    IllegalMeaning(cl, r.namespace, r.spec.project, r.spec.eventSources, e);
    KeptSource(r.spec.eventSources, Names(illegal), e);
    UniqueByName(r.spec);
    if e in r.spec.eventSources && e.name in Names(illegal) {
      var x :| x in illegal && x.name == e.name;
      IllegalMeaning(cl, r.namespace, r.spec.project, r.spec.eventSources, x);
    }
  }

  /******* Every check passes again *******/

  lemma StaticAgain(s: PipelineSpec, illegal: set<string>)
    requires StaticOk(s)
    ensures StaticOk(s.(eventSources := KeepSources(s.eventSources, illegal),
                        triggers := KeepTriggers(s.triggers, illegal)))
  {
    var s' := s.(eventSources := KeepSources(s.eventSources, illegal), triggers := KeepTriggers(s.triggers, illegal));
    KeptNames(s.eventSources, illegal);
    KeptTags(s.triggers, illegal);
    forall t | t in s'.triggers ensures NamesOk(s', t) && InputsOk(t) {
      KeptTrigger(s.triggers, illegal, t);
      assert NamesOk(s, t);
      NamesMeaning(s.eventSources, t.eventSource);
      var e :| e in s.eventSources && e.name == t.eventSource;
      KeptSource(s.eventSources, illegal, e);
      NamesMeaning(s'.eventSources, t.eventSource);
    }
  }

  // The usage of the others depends on the excluded runtime's kind, product and name only.
  lemma {:induction false} UsageAgain(xs: seq<Runtime>, envs: seq<Environment>, a: Runtime, b: Runtime,
                                      inCluster: string)
    requires SameRuntime(a, b)
    ensures FirstError(xs, envs, [a]) == FirstError(xs, envs, [b])
    ensures UsageMap(xs, envs, [a], inCluster) == UsageMap(xs, envs, [b], inCluster)
    decreases |xs|
  {
    if |xs| > 0 {
      UsageAgain(xs[..|xs| - 1], envs, a, b, inCluster);
      ExcludedOne(xs[|xs| - 1], a);
      ExcludedOne(xs[|xs| - 1], b);
    }
  }

  lemma {:induction false} NoneIllegal(cl: Client, product: string, project: string, sources: seq<EventSource>)
    requires forall e :: e in sources ==> !SourceIllegal(cl, product, project, e)
    ensures IllegalSources(cl, product, project, sources) == []
    decreases |sources|
  {
    if |sources| > 0 {
      var rest := sources[..|sources| - 1];
      assert sources == rest + [sources[|sources| - 1]];
      NoneIllegal(cl, product, project, rest);
    }
  }

  lemma HooksAgain(cl: Client, r: PipelineRuntime, r': PipelineRuntime, c: Cluster)
    requires r'.spec.hooks == r.spec.hooks && forall e :: e in r'.spec.eventSources ==> e in r.spec.eventSources
    requires HookRefusal(cl, r, c).None?
    ensures HookRefusal(cl, r', c).None?
  {
    FewerTypes(r.spec.hooks, TypesOf(r.spec.eventSources), TypesOf(r'.spec.eventSources), c,
               MetadataOf(cl, c.components["pipeline"].name).value);
  }

  /** A runtime that validates with illegal event sources validates in the same world
      without any once they are filtered out. */
  lemma Revalidation(cl: Client, r: PipelineRuntime)
    requires Verdict(cl, r).Ok?
    ensures Verdict(cl, WithoutIllegal(r, Verdict(cl, r).value)) == Ok([])
  {
    var illegal := Verdict(cl, r).value;
    var r' := WithoutIllegal(r, illegal);
    var c := GetClusterByRuntime(cl, r.namespace, r.spec.environment).value;
    if |illegal| > 0 {
      StaticAgain(r.spec, Names(illegal));
    }
    forall e | e in r'.spec.eventSources
      ensures e in r.spec.eventSources && !SourceIllegal(cl, r.namespace, r.spec.project, e)
    {
      Kept(cl, r, e);
    }
    UsageAgain(AllRuntimes(cl), cl.envs, Pipe(r), Pipe(r'), c.name);
    assert PlaceRefusal(cl, r', c) == PlaceRefusal(cl, r, c);
    HooksAgain(cl, r, r', c);
    NoneIllegal(cl, r.namespace, r.spec.project, r'.spec.eventSources);
  }

  /** Filtering again changes nothing: the filtered runtime has nothing left to filter. */
  lemma FilterIdempotent(cl: Client, r: PipelineRuntime)
    requires Verdict(cl, r).Ok?
    ensures var r' := WithoutIllegal(r, Verdict(cl, r).value);
      Verdict(cl, r').Ok? && WithoutIllegal(r', Verdict(cl, r').value) == r'
  {
    Revalidation(cl, r);
  }
}
