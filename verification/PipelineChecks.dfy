/** The checks of a pipeline runtime that need no other runtime: StaticCheck and the hooks. */
module PipelineChecks {
  import opened Wrappers
  import opened Strings
  import opened Resources

  predicate Distinct(names: seq<string>) {
    forall i, j :: 0 <= i < j < |names| ==> names[i] != names[j]
  }

  function SourceNames(sources: seq<EventSource>): seq<string> {
    seq(|sources|, i requires 0 <= i < |sources| => sources[i].name)
  }

  function PipelineNames(pipelines: seq<Pipeline>): seq<string> {
    seq(|pipelines|, i requires 0 <= i < |pipelines| => pipelines[i].name)
  }

  function Tag(t: PipelineTrigger): string {
    t.eventSource + "|" + t.pipeline + "|" + t.revision
  }

  function Tags(triggers: seq<PipelineTrigger>): seq<string> {
    seq(|triggers|, i requires 0 <= i < |triggers| => Tag(triggers[i]))
  }

  predicate InputOk(i: Input) {
    (i.builtInVar.Some? <==> i.fromEvent.None?) && i.kustomization.Some?
  }

  predicate InputsOk(t: PipelineTrigger) {
    forall i :: i in t.inputs ==> InputOk(i)
  }

  predicate GitOk(s: PipelineSpec) {
    s.additionalGit.Some? ==> s.additionalGit.value.codeRepo != "" || s.additionalGit.value.url != ""
  }

  predicate NamesOk(s: PipelineSpec, t: PipelineTrigger) {
    t.eventSource in SourceNames(s.eventSources) && t.pipeline in PipelineNames(s.pipelines)
  }

  // What StaticCheck accepts.
  predicate StaticOk(s: PipelineSpec) {
    && Distinct(SourceNames(s.eventSources)) && Distinct(PipelineNames(s.pipelines)) && GitOk(s)
    && (forall t :: t in s.triggers ==> NamesOk(s, t))
    && Distinct(Tags(s.triggers))
    && (forall t :: t in s.triggers ==> InputsOk(t))
  }

  method CheckDistinct(names: seq<string>) returns (ok: bool, seen: set<string>)
    ensures ok <==> Distinct(names)
    ensures ok ==> forall n :: n in seen <==> n in names
  {
    seen := {};
    for i := 0 to |names|
      invariant Distinct(names[..i]) && forall n :: n in seen <==> n in names[..i]
    {
      if names[i] in seen {
        assert exists j :: 0 <= j < i && names[..i][j] == names[i];
        return false, seen;
      }
      seen := seen + {names[i]};
      assert names[..i + 1] == names[..i] + [names[i]];
    }
    assert names[..|names|] == names;
    return true, seen;
  }

  method CheckInputs(triggers: seq<PipelineTrigger>) returns (ok: bool)
    ensures ok <==> forall t :: t in triggers ==> InputsOk(t)
  {
    for i := 0 to |triggers|
      invariant forall k :: 0 <= k < i ==> InputsOk(triggers[k])
    {
      if |triggers[i].inputs| == 0 {
        continue;
      }
      for j := 0 to |triggers[i].inputs|
        invariant forall k :: 0 <= k < j ==> InputOk(triggers[i].inputs[k])
      {
        var input := triggers[i].inputs[j];
        assert triggers[i] in triggers && input in triggers[i].inputs;
        if input.builtInVar.None? && input.fromEvent.None? {
          return false;
        }
        if input.builtInVar.Some? && input.fromEvent.Some? {
          return false;
        }
        if input.kustomization.None? {
          return false;
        }
      }
    }
    return true;
  }

  method CheckTriggers(s: PipelineSpec, sources: set<string>, pipelines: set<string>) returns (ok: bool)
    requires forall n :: n in sources <==> n in SourceNames(s.eventSources)
    requires forall n :: n in pipelines <==> n in PipelineNames(s.pipelines)
    ensures ok <==> (forall t :: t in s.triggers ==> NamesOk(s, t)) && Distinct(Tags(s.triggers))
  {
    var tags := {};
    var all := Tags(s.triggers);
    for i := 0 to |s.triggers|
      invariant forall k :: 0 <= k < i ==> NamesOk(s, s.triggers[k])
      invariant forall t :: t in tags <==> t in all[..i]
      invariant Distinct(all[..i])
    {
      var trigger := s.triggers[i];
      if trigger.eventSource !in sources || trigger.pipeline !in pipelines {
        assert !NamesOk(s, trigger);
        return false;
      }
      var tag := Tag(trigger);
      if tag in tags {
        assert exists k :: 0 <= k < i && all[..i][k] == all[i];
        return false;
      }
      tags := tags + {tag};
      assert all[..i + 1] == all[..i] + [tag];
    }
    assert all[..|s.triggers|] == all;
    return true;
  }

  method StaticCheck(s: PipelineSpec) returns (ok: bool)
    ensures ok <==> StaticOk(s)
  {
    var sourcesOk, sources := CheckDistinct(SourceNames(s.eventSources));
    if !sourcesOk {
      return false;
    }
    var pipelinesOk, pipelines := CheckDistinct(PipelineNames(s.pipelines));
    if !pipelinesOk {
      return false;
    }
    if s.additionalGit.Some? && s.additionalGit.value.codeRepo == "" && s.additionalGit.value.url == "" {
      return false;
    }
    var triggersOk := CheckTriggers(s, sources, pipelines);
    if !triggersOk {
      return false;
    }
    ok := CheckInputs(s.triggers);
  }

  /******* What acceptance means *******/

  predicate BarFree(s: PipelineSpec) {
    forall t :: t in s.triggers ==> '|' !in t.eventSource && '|' !in t.pipeline
  }

  predicate SameTriple(a: PipelineTrigger, b: PipelineTrigger) {
    a.eventSource == b.eventSource && a.pipeline == b.pipeline && a.revision == b.revision
  }

  predicate TriplesDistinct(s: PipelineSpec) {
    forall i, j :: 0 <= i < j < |s.triggers| ==> !SameTriple(s.triggers[i], s.triggers[j])
  }

  /** The joined tag names the triple, for any revision, when the names hold no bar. */
  lemma TagInjective(a: PipelineTrigger, b: PipelineTrigger)
    requires '|' !in a.eventSource && '|' !in a.pipeline && '|' !in b.eventSource && '|' !in b.pipeline
    ensures Tag(a) == Tag(b) <==> SameTriple(a, b)
  {
    if Tag(a) == Tag(b) {
      var x, y := a.pipeline + ['|'] + a.revision, b.pipeline + ['|'] + b.revision;
      assert Tag(a) == a.eventSource + ['|'] + x && Tag(b) == b.eventSource + ['|'] + y;
      JoinUnique(a.eventSource, x, b.eventSource, y, '|');
      JoinUnique(a.pipeline, a.revision, b.pipeline, b.revision, '|');
    }
  }

  /** For the names the resource definition admits, StaticCheck compares triggers by
      their source, pipeline and revision. */
  lemma StaticMeaning(s: PipelineSpec)
    requires BarFree(s)
    ensures Distinct(Tags(s.triggers)) <==> TriplesDistinct(s)
  {
    forall i, j | 0 <= i < j < |s.triggers|
      ensures Tags(s.triggers)[i] == Tags(s.triggers)[j] <==> SameTriple(s.triggers[i], s.triggers[j])
    {
      assert s.triggers[i] in s.triggers && s.triggers[j] in s.triggers;
      TagInjective(s.triggers[i], s.triggers[j]);
    }
  }

  // Two triggers that differ have one tag.
  predicate TagsClash(s: PipelineSpec) {
    exists i, j :: 0 <= i < j < |s.triggers| && Tag(s.triggers[i]) == Tag(s.triggers[j])
      && !SameTriple(s.triggers[i], s.triggers[j])
  }

  /** For any names, the tags are distinct iff the triples are and no two triggers that
      differ have one tag; so the check is wrong iff the triples are distinct and tags clash. */
  lemma StaticExactly(s: PipelineSpec)
    ensures Distinct(Tags(s.triggers)) <==> TriplesDistinct(s) && !TagsClash(s)
    ensures (Distinct(Tags(s.triggers)) <==> TriplesDistinct(s)) <==> !(TriplesDistinct(s) && TagsClash(s))
  {
    var tags := Tags(s.triggers);
    assert forall i :: 0 <= i < |tags| ==> tags[i] == Tag(s.triggers[i]);
    if Distinct(tags) {
      forall i, j | 0 <= i < j < |s.triggers| ensures Tag(s.triggers[i]) != Tag(s.triggers[j]) {
        assert tags[i] != tags[j];
      }
    }
  }

  /** With bars in the names, StaticCheck refuses different triggers. */
  lemma BarsCollide()
    ensures var a := PipelineTrigger("s|p", "q", "r", []);
      var b := PipelineTrigger("s", "p|q", "r", []);
      Tag(a) == Tag(b) && !SameTriple(a, b)
  {
    var a := PipelineTrigger("s|p", "q", "r", []);
    var b := PipelineTrigger("s", "p|q", "r", []);
    assert Tag(a) == "s|p|q|r" && Tag(b) == "s|p|q|r";
    assert a.eventSource[1] == '|' && b.eventSource == "s";
  }

  // Two sources and two pipelines whose names hold bars, and a trigger for each pair.
  function BarSpec(): PipelineSpec {
    PipelineSpec("web", "src", [Pipeline("q", "/"), Pipeline("p|q", "/")], "build", "",
                 [EventSource("s|p", None, None), EventSource("s", None, None)],
                 [PipelineTrigger("s|p", "q", "r", []), PipelineTrigger("s", "p|q", "r", [])], None, None)
  }

  /** So StaticCheck refuses a spec for nothing but the bars in its names. */
  lemma BarsRefused()
    ensures var s := BarSpec();
      && Distinct(SourceNames(s.eventSources)) && Distinct(PipelineNames(s.pipelines)) && GitOk(s)
      && (forall t :: t in s.triggers ==> NamesOk(s, t) && InputsOk(t))
      && TriplesDistinct(s) && !StaticOk(s)
  {
    var s := BarSpec();
    BarsCollide();
    assert |"s|p"| != |"s"| && |"q"| != |"p|q"|;
    assert SourceNames(s.eventSources) == ["s|p", "s"] && PipelineNames(s.pipelines) == ["q", "p|q"];
    assert Tags(s.triggers)[0] == Tags(s.triggers)[1];
  }

  function GetEventSource(sources: seq<EventSource>, name: string): Option<EventSource> {
    if |sources| == 0 then None
    else if sources[0].name == name then Some(sources[0])
    else GetEventSource(sources[1..], name)
  }

  function GetPipeline(pipelines: seq<Pipeline>, name: string): Option<Pipeline> {
    if |pipelines| == 0 then None
    else if pipelines[0].name == name then Some(pipelines[0])
    else GetPipeline(pipelines[1..], name)
  }

  lemma {:induction false} SourceFound(sources: seq<EventSource>, e: EventSource)
    requires e in sources && forall x, y :: x in sources && y in sources && x.name == y.name ==> x == y
    ensures GetEventSource(sources, e.name) == Some(e)
  {
    if sources[0].name != e.name { SourceFound(sources[1..], e); }
  }

  lemma {:induction false} PipelineFound(pipelines: seq<Pipeline>, p: Pipeline)
    requires p in pipelines && forall x, y :: x in pipelines && y in pipelines && x.name == y.name ==> x == y
    ensures GetPipeline(pipelines, p.name) == Some(p)
  {
    if pipelines[0].name != p.name { PipelineFound(pipelines[1..], p); }
  }

  lemma UniqueByName(s: PipelineSpec)
    requires Distinct(SourceNames(s.eventSources)) && Distinct(PipelineNames(s.pipelines))
    ensures forall x, y :: x in s.eventSources && y in s.eventSources && x.name == y.name ==> x == y
    ensures forall x, y :: x in s.pipelines && y in s.pipelines && x.name == y.name ==> x == y
  {
    forall x, y | x in s.eventSources && y in s.eventSources && x.name == y.name ensures x == y {
      var i :| 0 <= i < |s.eventSources| && s.eventSources[i] == x;
      var j :| 0 <= j < |s.eventSources| && s.eventSources[j] == y;
      assert SourceNames(s.eventSources)[i] == SourceNames(s.eventSources)[j];
    }
    forall x, y | x in s.pipelines && y in s.pipelines && x.name == y.name ensures x == y {
      var i :| 0 <= i < |s.pipelines| && s.pipelines[i] == x;
      var j :| 0 <= j < |s.pipelines| && s.pipelines[j] == y;
      assert PipelineNames(s.pipelines)[i] == PipelineNames(s.pipelines)[j];
    }
  }

  /** After StaticCheck both lookups of every trigger succeed, and there is only one
      source and one pipeline they can return. */
  lemma TriggersResolve(s: PipelineSpec, t: PipelineTrigger, e: EventSource, p: Pipeline)
    requires StaticOk(s) && t in s.triggers
    ensures GetEventSource(s.eventSources, t.eventSource).Some? && GetPipeline(s.pipelines, t.pipeline).Some?
    ensures e in s.eventSources && e.name == t.eventSource ==> GetEventSource(s.eventSources, t.eventSource) == Some(e)
    ensures p in s.pipelines && p.name == t.pipeline ==> GetPipeline(s.pipelines, t.pipeline) == Some(p)
  {
    UniqueByName(s);
    assert NamesOk(s, t);
    var i :| 0 <= i < |s.eventSources| && s.eventSources[i].name == t.eventSource;
    var j :| 0 <= j < |s.pipelines| && s.pipelines[j].name == t.pipeline;
    SourceFound(s.eventSources, s.eventSources[i]);
    PipelineFound(s.pipelines, s.pipelines[j]);
  }

  /******* Hooks *******/

  function HookName(h: Hook): string {
    h.alias.GetOr(h.name)
  }

  function HookTypes(hooks: seq<Hook>): seq<string> {
    seq(|hooks|, i requires 0 <= i < |hooks| => hooks[i].name)
  }

  function HookNames(hooks: seq<Hook>): seq<string> {
    seq(|hooks|, i requires 0 <= i < |hooks| => HookName(hooks[i]))
  }

  // The metadata of a hook; of several entries with its name the last one counts.
  function RuleFor(rules: seq<HookMetadata>, name: string): Option<HookMetadata> {
    if |rules| == 0 then None
    else if rules[|rules| - 1].name == name then Some(rules[|rules| - 1])
    else RuleFor(rules[..|rules| - 1], name)
  }

  predicate Supports(rule: HookMetadata, types: seq<string>) {
    |rule.supportEventSourceTypes| == 0 || forall t :: t in types ==> t in rule.supportEventSourceTypes
  }

  predicate InPhase(rule: HookMetadata, pre: bool) {
    if pre then rule.isPreHook else rule.isPostHook
  }

  predicate HookAllowed(h: Hook, pre: bool, types: seq<string>, rules: seq<HookMetadata>) {
    var rule := RuleFor(rules, h.name);
    rule.Some? && InPhase(rule.value, pre) && Supports(rule.value, types)
  }

  predicate HooksOk(hooks: Hooks, types: seq<string>, rules: seq<HookMetadata>) {
    && (forall h :: h in hooks.preHooks ==> HookAllowed(h, true, types, rules))
    && (forall h :: h in hooks.postHooks ==> HookAllowed(h, false, types, rules))
    && Distinct(HookTypes(hooks.preHooks)) && Distinct(HookTypes(hooks.postHooks))
    && Distinct(HookNames(hooks.preHooks + hooks.postHooks))
  }

  datatype HookAnswer = Accepted | Rejected | Panic

  // The event listener is read before anything else, without a check that it is set.
  function HooksAnswer(hooks: Option<Hooks>, types: seq<string>, cluster: Cluster, rules: seq<HookMetadata>)
    : HookAnswer
  {
    if hooks.None? then Accepted
    else if "eventListener" !in cluster.components then Panic
    else if HooksOk(hooks.value, types, rules) then Accepted else Rejected
  }

  method ConvertMetadataArrayToMap(rules: seq<HookMetadata>) returns (m: map<string, HookMetadata>)
    ensures forall n :: n in m <==> RuleFor(rules, n).Some?
    ensures forall n :: n in m ==> m[n] == RuleFor(rules, n).value
  {
    m := map[];
    for i := 0 to |rules|
      invariant forall n :: n in m <==> RuleFor(rules[..i], n).Some?
      invariant forall n :: n in m ==> m[n] == RuleFor(rules[..i], n).value
    {
      m := m[rules[i].name := rules[i]];
      assert rules[..i + 1][..i] == rules[..i];
    }
    assert rules[..|rules|] == rules;
  }

  method IsHookSupportEventSourceTypes(supported: seq<string>, types: seq<string>) returns (ok: bool)
    ensures ok <==> |supported| == 0 || forall t :: t in types ==> t in supported
  {
    if |supported| == 0 {
      return true;
    }
    var unsupported := (set t | t in types) - (set t | t in supported);
    assert forall t :: t in unsupported <==> t in types && t !in supported;
    return unsupported == {};
  }

  method FindRule(hook: Hook, pre: bool, rules: seq<HookMetadata>, ruleMap: map<string, HookMetadata>)
    returns (rule: Option<HookMetadata>)
    requires forall n :: n in ruleMap <==> RuleFor(rules, n).Some?
    requires forall n :: n in ruleMap ==> ruleMap[n] == RuleFor(rules, n).value
    ensures rule.Some? <==> RuleFor(rules, hook.name).Some? && InPhase(RuleFor(rules, hook.name).value, pre)
    ensures rule.Some? ==> rule == RuleFor(rules, hook.name)
  {
    if hook.name !in ruleMap || !InPhase(ruleMap[hook.name], pre) {
      return None;
    }
    return Some(ruleMap[hook.name]);
  }

  method ValidateHookGeneral(hook: Hook, rule: HookMetadata, types: seq<string>, hookTypes: set<string>,
                             aliases: set<string>)
    returns (ok: bool)
    ensures ok <==> hook.name !in hookTypes && HookName(hook) !in aliases && Supports(rule, types)
  {
    if hook.name in hookTypes {
      return false;
    }
    if HookName(hook) in aliases {
      return false;
    }
    ok := IsHookSupportEventSourceTypes(rule.supportEventSourceTypes, types);
  }

  // What one of the two loops accepts, given the names the other one used.
  predicate PhaseOk(hooks: seq<Hook>, pre: bool, types: seq<string>, rules: seq<HookMetadata>, aliases: set<string>) {
    && (forall h :: h in hooks ==> HookAllowed(h, pre, types, rules))
    && Distinct(HookTypes(hooks)) && Distinct(HookNames(hooks))
    && (forall n :: n in HookNames(hooks) ==> n !in aliases)
  }

  lemma PhaseOneMore(hooks: seq<Hook>, h: Hook, pre: bool, types: seq<string>, rules: seq<HookMetadata>,
                     aliases: set<string>)
    requires PhaseOk(hooks, pre, types, rules, aliases)
    ensures PhaseOk(hooks + [h], pre, types, rules, aliases) <==>
      && HookAllowed(h, pre, types, rules)
      && h.name !in HookTypes(hooks) && HookName(h) !in HookNames(hooks) && HookName(h) !in aliases
  {
    assert HookTypes(hooks + [h]) == HookTypes(hooks) + [h.name];
    assert HookNames(hooks + [h]) == HookNames(hooks) + [HookName(h)];
    DistinctSnoc(HookTypes(hooks), h.name);
    DistinctSnoc(HookNames(hooks), HookName(h));
    assert h in hooks + [h];
  }

  lemma DistinctSnoc(names: seq<string>, n: string)
    requires Distinct(names)
    ensures Distinct(names + [n]) <==> n !in names
  {
    if n in names {
      var k :| 0 <= k < |names| && names[k] == n;
      assert (names + [n])[k] == (names + [n])[|names|];
    }
  }

  lemma PhasePrefix(hooks: seq<Hook>, i: nat, pre: bool, types: seq<string>, rules: seq<HookMetadata>,
                    aliases: set<string>)
    requires i <= |hooks| && PhaseOk(hooks, pre, types, rules, aliases)
    ensures PhaseOk(hooks[..i], pre, types, rules, aliases)
  {
    assert HookTypes(hooks[..i]) == HookTypes(hooks)[..i];
    assert HookNames(hooks[..i]) == HookNames(hooks)[..i];
  }

  // One of the two loops of validateHooks; `aliases` is shared between them.
  method ValidatePhase(hooks: seq<Hook>, pre: bool, types: seq<string>, rules: seq<HookMetadata>,
                       ruleMap: map<string, HookMetadata>, aliases: set<string>)
    returns (ok: bool, aliases': set<string>)
    requires forall n :: n in ruleMap <==> RuleFor(rules, n).Some?
    requires forall n :: n in ruleMap ==> ruleMap[n] == RuleFor(rules, n).value
    ensures ok <==> PhaseOk(hooks, pre, types, rules, aliases)
    ensures ok ==> forall n :: n in aliases' <==> n in aliases || n in HookNames(hooks)
  {
    var hookTypes := {};
    aliases' := aliases;
    for i := 0 to |hooks|
      invariant PhaseOk(hooks[..i], pre, types, rules, aliases)
      invariant forall n :: n in hookTypes <==> n in HookTypes(hooks[..i])
      invariant forall n :: n in aliases' <==> n in aliases || n in HookNames(hooks[..i])
    {
      var hook := hooks[i];
      assert hooks[..i + 1] == hooks[..i] + [hook];
      PhaseOneMore(hooks[..i], hook, pre, types, rules, aliases);
      if PhaseOk(hooks, pre, types, rules, aliases) { PhasePrefix(hooks, i + 1, pre, types, rules, aliases); }
      var rule := FindRule(hook, pre, rules, ruleMap);
      if rule.None? {
        return false, aliases';
      }
      var general := ValidateHookGeneral(hook, rule.value, types, hookTypes, aliases');
      if !general {
        return false, aliases';
      }
      hookTypes := hookTypes + {hook.name};
      aliases' := aliases' + {HookName(hook)};
      assert HookTypes(hooks[..i + 1]) == HookTypes(hooks[..i]) + [hook.name];
      assert HookNames(hooks[..i + 1]) == HookNames(hooks[..i]) + [HookName(hook)];
    }
    assert hooks[..|hooks|] == hooks;
    return true, aliases';
  }

  lemma DistinctConcat(a: seq<Hook>, b: seq<Hook>)
    ensures Distinct(HookNames(a + b)) <==>
      Distinct(HookNames(a)) && Distinct(HookNames(b)) && forall n :: n in HookNames(b) ==> n !in HookNames(a)
  {
    var x, y := HookNames(a), HookNames(b);
    assert HookNames(a + b) == x + y;
    assert forall i :: 0 <= i < |x| ==> (x + y)[i] == x[i];
    assert forall j :: 0 <= j < |y| ==> (x + y)[|x| + j] == y[j];
    if Distinct(x + y) {
      forall i, j | 0 <= i < |x| && 0 <= j < |y| ensures x[i] != y[j] {
        assert (x + y)[i] != (x + y)[|x| + j];
      }
    }
    if Distinct(x) && Distinct(y) && forall n :: n in y ==> n !in x {
      forall i, j | 0 <= i < j < |x + y| ensures (x + y)[i] != (x + y)[j] {
        assert i < |x| ==> (x + y)[i] in x;
        assert j >= |x| ==> (x + y)[j] == y[j - |x|] && y[j - |x|] in y;
        assert i >= |x| ==> (x + y)[i] == y[i - |x|];
      }
    }
  }

  /** validateHooks is sound and complete: given an event listener it accepts exactly the
      hooks that are known and allowed in their phase, with distinct types in each phase,
      distinct names over both, and support for every event source type. */
  method ValidateHooks(hooks: Option<Hooks>, types: seq<string>, cluster: Cluster, rules: seq<HookMetadata>)
    returns (answer: HookAnswer)
    ensures answer == HooksAnswer(hooks, types, cluster, rules)
  {
    if hooks.None? {
      return Accepted;
    }
    if "eventListener" !in cluster.components {
      return Panic;
    }
    var ruleMap := ConvertMetadataArrayToMap(rules);
    DistinctConcat(hooks.value.preHooks, hooks.value.postHooks);
    var preOk, aliases := ValidatePhase(hooks.value.preHooks, true, types, rules, ruleMap, {});
    if !preOk {
      return Rejected;
    }
    var postOk, _ := ValidatePhase(hooks.value.postHooks, false, types, rules, ruleMap, aliases);
    return if postOk then Accepted else Rejected;
  }

  /** The answer depends on which event source types there are, not on their order, and
      hooks that pass go on passing when types disappear. */
  lemma FewerTypes(hooks: Option<Hooks>, types: seq<string>, fewer: seq<string>, cluster: Cluster,
                   rules: seq<HookMetadata>)
    requires forall t :: t in fewer ==> t in types
    requires HooksAnswer(hooks, types, cluster, rules) == Accepted
    ensures HooksAnswer(hooks, fewer, cluster, rules) == Accepted
  {
    if hooks.Some? {
      forall h | h in hooks.value.preHooks ensures HookAllowed(h, true, fewer, rules) {
        assert HookAllowed(h, true, types, rules);
      }
      forall h | h in hooks.value.postHooks ensures HookAllowed(h, false, fewer, rules) {
        assert HookAllowed(h, false, types, rules);
      }
    }
  }
}
