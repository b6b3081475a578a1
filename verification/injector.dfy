/** The mutation decision engine of the webhook: the resource-kind gate, the annotation
    opt-in gate, the ordinal extractor and the node-affinity patch builder. */
module Injector {
  import opened Wrappers
  import opened GoStrings
  import opened Kube
  import opened JsonPatch

  const EnabledAnnotation: string := "statefulset-affinity-injector-webhook.hsiam261.github.io/enabled"
  const ConfigAnnotation: string := "statefulset-affinity-injector-webhook.hsiam261.github.io/config"

  /** Label key to the values replicas are spread over, in order. */
  type MutationConfig = map<string, seq<string>>

  datatype Error =
    | UnexpectedResource(resource: GroupVersionResource)
    | DecodeFailed
    | MissingEnabledAnnotation
    | NotEnabled
    | MissingConfigAnnotation
    | MalformedConfig
    | NoIndexSuffix
      /** Go's run-time panic on `x % 0`: a configured key has an empty value list. */
    | ModuloByZero

  // ---------------------------------------------------------------------------
  // Resource-kind gate
  // ---------------------------------------------------------------------------

  /** The Pod carried by an admission request. Only the `pods` resource is accepted, and the
      kind is checked before the object bytes are looked at; `decodePod` stands for JSON
      decoding of those bytes. */
  function GetPodFromAdmissionRequest(request: AdmissionRequest, decodePod: seq<byte> -> Option<Pod>): (r: Result<Pod, Error>)
    ensures request.resource.resource != "pods" ==> r == Failure(UnexpectedResource(request.resource))
    ensures r.Success? <==> request.resource.resource == "pods" && decodePod(request.raw).Some?
    ensures r.Success? ==> decodePod(request.raw) == Some(r.value)
  {
    if request.resource.resource != "pods" then Failure(UnexpectedResource(request.resource))
    else
      match decodePod(request.raw)
      case None => Failure(DecodeFailed)
      case Some(pod) => Success(pod)
  }

  // ---------------------------------------------------------------------------
  // Annotation opt-in gate
  // ---------------------------------------------------------------------------

  /** The enable annotation is present and spells `true` the way Go's ParseBool reads it. */
  predicate OptedIn(annotations: map<string, string>)
  {
    EnabledAnnotation in annotations && annotations[EnabledAnnotation] in TrueLiterals
  }

  /** The mutation configuration of an opted-in Pod. The enable annotation must be present and
      true (text ParseBool rejects counts as false), the config annotation must be present, and
      its value must parse; `parseConfig` stands for JSON decoding into a map of string lists. */
  function GetMutationConfig(pod: Pod, parseConfig: string -> Option<MutationConfig>): (r: Result<MutationConfig, Error>)
    ensures var ann := pod.metadata.annotations;
      r == Failure(MissingEnabledAnnotation) <==> EnabledAnnotation !in ann
    ensures var ann := pod.metadata.annotations;
      r == Failure(NotEnabled) <==> EnabledAnnotation in ann && ann[EnabledAnnotation] !in TrueLiterals
    ensures var ann := pod.metadata.annotations;
      r == Failure(MissingConfigAnnotation) <==> OptedIn(ann) && ConfigAnnotation !in ann
    ensures var ann := pod.metadata.annotations;
      r == Failure(MalformedConfig) <==> OptedIn(ann) && ConfigAnnotation in ann && parseConfig(ann[ConfigAnnotation]).None?
    ensures var ann := pod.metadata.annotations;
      r.Success? <==> OptedIn(ann) && ConfigAnnotation in ann && parseConfig(ann[ConfigAnnotation]).Some?
    ensures r.Success? ==> parseConfig(pod.metadata.annotations[ConfigAnnotation]) == Some(r.value)
  {
    var ann := pod.metadata.annotations;
    if EnabledAnnotation !in ann then Failure(MissingEnabledAnnotation)
    else if !ParseBool(ann[EnabledAnnotation]).GetOr(false) then Failure(NotEnabled)
    else if ConfigAnnotation !in ann then Failure(MissingConfigAnnotation)
    else
      match parseConfig(ann[ConfigAnnotation])
      case None => Failure(MalformedConfig)
      case Some(config) => Success(config)
  }

  /** The opt-in gate with the value lists checked as well: a configuration in which some key
      has no values is rejected as malformed instead of being handed to the patch builder,
      where it would make the selection divide by zero. */
  function GetCheckedMutationConfig(pod: Pod, parseConfig: string -> Option<MutationConfig>): (r: Result<MutationConfig, Error>)
    ensures r.Success? <==> GetMutationConfig(pod, parseConfig).Success? && !HasEmptyValueList(GetMutationConfig(pod, parseConfig).value)
    ensures r.Success? ==> GetMutationConfig(pod, parseConfig) == Success(r.value) && forall k :: k in r.value ==> |r.value[k]| > 0
    ensures GetMutationConfig(pod, parseConfig).Failure? ==> r == GetMutationConfig(pod, parseConfig)
  {
    match GetMutationConfig(pod, parseConfig)
    case Failure(e) => Failure(e)
    case Success(config) => if HasEmptyValueList(config) then Failure(MalformedConfig) else Success(config)
  }

  // ---------------------------------------------------------------------------
  // Ordinal extractor
  // ---------------------------------------------------------------------------

  /** The digits of an ordinal suffix once an optional `+` is dropped. */
  function OrdinalDigits(segment: string): string
  {
    if |segment| > 0 && segment[0] == '+' then segment[1..] else segment
  }

  /** The replica ordinal: the integer value of the last `-`-separated piece of the Pod name
      (the whole name when it has no `-`). That piece cannot hold a `-`, so the ordinal is an
      optional `+` and one or more digits, and it is never negative. */
  function GetStatefulSetPodIndex(pod: Pod): (r: Result<int, Error>)
    ensures r.Success? ==> 0 <= r.value <= MaxInt64
    ensures var digits := OrdinalDigits(LastSegment(pod.metadata.name, '-'));
      r.Success? <==> |digits| > 0 && AllDigits(digits) && DigitsValue(digits) <= MaxInt64
    ensures r.Success? ==> r.value == DigitsValue(OrdinalDigits(LastSegment(pod.metadata.name, '-')))
    ensures r.Failure? ==> r.error == NoIndexSuffix
  {
    var segment := LastSegment(pod.metadata.name, '-');
    assert Unsigned(segment) == OrdinalDigits(segment);
    match Atoi(segment)
    case None => Failure(NoIndexSuffix)
    case Some(n) => Success(n)
  }

  // ---------------------------------------------------------------------------
  // Affinity patch builder
  // ---------------------------------------------------------------------------

  /** `order` lists every configured key exactly once: one possible iteration order of a
      Go map, which the language leaves unspecified. */
  predicate IsEnumeration(order: seq<string>, keys: set<string>)
  {
    && (forall i, j :: 0 <= i < j < |order| ==> order[i] != order[j])
    && (forall k :: k in order ==> k in keys)
    && (forall k :: k in keys ==> k in order)
  }

  /** `vals[index % len(vals)]`. */
  function SelectValue(vals: seq<string>, index: nat): (v: string)
    requires |vals| > 0
    ensures v in vals
  {
    vals[index % |vals|]
  }

  /** The term holds exactly one label requirement per configured key, each with operator `In`
      and the single value that `index` selects from that key's list, and no field requirement. */
  predicate SelectsOrdinal(term: NodeSelectorTerm, config: MutationConfig, index: nat)
  {
    var exprs := term.matchExpressions;
    && |term.matchFields| == 0
    && |exprs| == |config|
    && (forall i, j :: 0 <= i < j < |exprs| ==> exprs[i].key != exprs[j].key)
    && (forall e :: e in exprs ==>
          e.key in config && |config[e.key]| > 0 && e.operator == "In" && e.values == [SelectValue(config[e.key], index)])
    && (forall k :: k in config ==> exists e :: e in exprs && e.key == k)
  }

  /** One `In` requirement per key of `keys`, in that order. */
  function Requirements(config: MutationConfig, keys: seq<string>, index: nat): (exprs: seq<NodeSelectorRequirement>)
    requires forall k :: k in keys ==> k in config && |config[k]| > 0
    ensures |exprs| == |keys|
    ensures forall i :: 0 <= i < |keys| ==>
      exprs[i] == NodeSelectorRequirement(keys[i], "In", [SelectValue(config[keys[i]], index)])
  {
    if |keys| == 0 then []
    else [NodeSelectorRequirement(keys[0], "In", [SelectValue(config[keys[0]], index)])]
         + Requirements(config, keys[1..], index)
  }

  /** The term built from the keys in iteration order selects the ordinal's values. */
  lemma RequirementsSelectOrdinal(config: MutationConfig, order: seq<string>, index: nat)
    requires IsEnumeration(order, config.Keys)
    requires forall k :: k in config ==> |config[k]| > 0
    ensures SelectsOrdinal(NodeSelectorTerm(Requirements(config, order, index), []), config, index)
  {
    RequirementsCount(config, order, index);
    RequirementsKeys(config, order, index);
    RequirementsEach(config, order, index);
    RequirementsCover(config, order, index);
  }

  lemma RequirementsCount(config: MutationConfig, order: seq<string>, index: nat)
    requires IsEnumeration(order, config.Keys)
    requires forall k :: k in config ==> |config[k]| > 0
    ensures |Requirements(config, order, index)| == |config|
  {
    DistinctCardinality(order);
    assert (set k | k in order) == config.Keys;
  }

  lemma RequirementsKeys(config: MutationConfig, order: seq<string>, index: nat)
    requires IsEnumeration(order, config.Keys)
    requires forall k :: k in config ==> |config[k]| > 0
    ensures var exprs := Requirements(config, order, index);
      forall i, j :: 0 <= i < j < |exprs| ==> exprs[i].key != exprs[j].key
  {
    var exprs := Requirements(config, order, index);
    assert forall i :: 0 <= i < |exprs| ==> exprs[i].key == order[i];
  }

  lemma RequirementsEach(config: MutationConfig, order: seq<string>, index: nat)
    requires IsEnumeration(order, config.Keys)
    requires forall k :: k in config ==> |config[k]| > 0
    ensures var exprs := Requirements(config, order, index);
      forall e :: e in exprs ==>
        e.key in config && |config[e.key]| > 0 && e.operator == "In" && e.values == [SelectValue(config[e.key], index)]
  {
    var exprs := Requirements(config, order, index);
    forall e | e in exprs
      ensures e.key in config && |config[e.key]| > 0
      ensures e.operator == "In" && e.values == [SelectValue(config[e.key], index)]
    {
      var i :| 0 <= i < |exprs| && exprs[i] == e;
    }
  }

  lemma RequirementsCover(config: MutationConfig, order: seq<string>, index: nat)
    requires IsEnumeration(order, config.Keys)
    requires forall k :: k in config ==> |config[k]| > 0
    ensures var exprs := Requirements(config, order, index);
      forall k :: k in config ==> exists e :: e in exprs && e.key == k
  {
    var exprs := Requirements(config, order, index);
    forall k | k in config
      ensures exists e :: e in exprs && e.key == k
    {
      var i :| 0 <= i < |order| && order[i] == k;
      assert exprs[i] in exprs;
    }
  }

  /** A sequence without repetitions has as many elements as its set of elements. */
  lemma {:induction false} DistinctCardinality(s: seq<string>)
    requires forall i, j :: 0 <= i < j < |s| ==> s[i] != s[j]
    ensures |set k | k in s| == |s|
  {
    if |s| > 0 {
      var rest := s[1..];
      DistinctCardinality(rest);
      assert (set k | k in s) == (set k | k in rest) + {s[0]};
      assert s[0] !in rest;
    }
  }

  /** The scaffolding `add`s of lines 84-123: one per missing container, outermost first.
      Creating a container forces every deeper one to be created too. */
  function Scaffold(pod: Pod): (ops: seq<Operation>)
    ensures |ops| == 4 - PresentDepth(pod)
    ensures forall i :: 0 <= i < |ops| ==> ops[i] == ScaffoldOp(PresentDepth(pod) + i)
  {
    var affinity := pod.spec.affinity;
    var noAffinity := affinity.None?;
    var noNodeAffinity := noAffinity || affinity.value.nodeAffinity.None?;
    var noRequired := noNodeAffinity
      || affinity.value.nodeAffinity.value.requiredDuringSchedulingIgnoredDuringExecution.None?;
    var noTerms := noRequired
      || affinity.value.nodeAffinity.value.requiredDuringSchedulingIgnoredDuringExecution.value.nodeSelectorTerms.None?;
    (if noAffinity then [ScaffoldOp(0)] else [])
    + (if noNodeAffinity then [ScaffoldOp(1)] else [])
    + (if noRequired then [ScaffoldOp(2)] else [])
    + (if noTerms then [ScaffoldOp(3)] else [])
  }

  /** Whether the container at `level` (0 affinity, 1 node affinity, 2 required selector,
      3 term list) exists in the Pod. */
  predicate ContainerPresent(pod: Pod, level: nat)
    requires level < 4
  {
    match level
    case 0 => pod.spec.affinity.Some?
    case 1 => NodeAffinityOf(pod).Some?
    case 2 => RequiredOf(pod).Some?
    case _ => TermsOf(pod).Some?
  }

  /** The `add` for a container is emitted exactly when that container is absent; a missing
      container makes every deeper one absent too. */
  lemma ScaffoldIffAbsent(pod: Pod, level: nat)
    requires level < 4
    ensures ScaffoldOp(level) in Scaffold(pod) <==> !ContainerPresent(pod, level)
  {
    var ops, depth := Scaffold(pod), PresentDepth(pod);
    var lengths := [|AffinityPath|, |NodeAffinityPath|, |RequiredPath|, |TermsPath|];
    assert forall l :: 0 <= l < 4 ==> |ScaffoldOp(l).path| == lengths[l];
    if ScaffoldOp(level) in ops {
      var i :| 0 <= i < |ops| && ops[i] == ScaffoldOp(level);
      assert ScaffoldOp(depth + i) == ScaffoldOp(level);
      assert depth + i == level;
    }
  }

  /** Some configured key has no values to choose from. */
  predicate HasEmptyValueList(config: MutationConfig)
  {
    exists k :: k in config && |config[k]| == 0
  }

  /** The shape of a successful patch for a Pod whose ordinal is `index`: an `add` for each
      missing container, outermost first, then one append of a term that selects the
      ordinal's values; between one and five operations, none after one beneath it. */
  predicate IsAffinityPatch(ops: seq<Operation>, pod: Pod, config: MutationConfig, index: nat)
  {
    var depth := PresentDepth(pod);
    && 1 <= |ops| <= 5
    && |ops| == 5 - depth
    && (forall i :: 0 <= i < |ops| - 1 ==> ops[i] == ScaffoldOp(depth + i))
    && ops[|ops| - 1].path == AppendTermPath
    && ops[|ops| - 1].value.Term?
    && SelectsOrdinal(ops[|ops| - 1].value.term, config, index)
    && AncestorsFirst(ops)
  }

  /** The patch that pins the Pod to nodes carrying, for each configured key, the value its
      ordinal selects. It fails when the ordinal cannot be read, and (Go panics) when a key has
      no values; otherwise it is the scaffolding for the missing containers followed by one
      append of a new term. */
  function GetPodPatch(pod: Pod, config: MutationConfig, order: seq<string>): (r: Result<seq<Operation>, Error>)
    requires IsEnumeration(order, config.Keys)
    ensures GetStatefulSetPodIndex(pod).Failure? ==> r == Failure(NoIndexSuffix)
    ensures r == Failure(ModuloByZero) <==> GetStatefulSetPodIndex(pod).Success? && HasEmptyValueList(config)
    ensures r.Success? <==> GetStatefulSetPodIndex(pod).Success? && !HasEmptyValueList(config)
    ensures r.Success? ==> IsAffinityPatch(r.value, pod, config, GetStatefulSetPodIndex(pod).value)
  {
    match GetStatefulSetPodIndex(pod)
    case Failure(e) => Failure(e)
    case Success(index) =>
      if exists i :: 0 <= i < |order| && |config[order[i]]| == 0 then Failure(ModuloByZero)
      else
        var ops := Scaffold(pod) + [Add(AppendTermPath, Term(NodeSelectorTerm(Requirements(config, order, index), [])))];
        AffinityPatchShape(pod, config, order, index);
        Success(ops)
  }

  /** The scaffolding followed by the append of the term built in iteration order has the
      shape of a successful patch. */
  lemma AffinityPatchShape(pod: Pod, config: MutationConfig, order: seq<string>, index: nat)
    requires IsEnumeration(order, config.Keys)
    requires !exists i :: 0 <= i < |order| && |config[order[i]]| == 0
    ensures !HasEmptyValueList(config)
    ensures IsAffinityPatch(Scaffold(pod) + [Add(AppendTermPath, Term(NodeSelectorTerm(Requirements(config, order, index), [])))],
                            pod, config, index)
  {
    NoEmptyValueList(config, order);
    var term := NodeSelectorTerm(Requirements(config, order, index), []);
    RequirementsSelectOrdinal(config, order, index);
    AppendAfterScaffold(pod, term);
  }

  /** A value list is empty for some key exactly when it is for some key of an enumeration. */
  lemma NoEmptyValueList(config: MutationConfig, order: seq<string>)
    requires IsEnumeration(order, config.Keys)
    requires !exists i :: 0 <= i < |order| && |config[order[i]]| == 0
    ensures forall k :: k in config ==> |config[k]| > 0
  {
    forall k | k in config
      ensures |config[k]| > 0
    {
      var i :| 0 <= i < |order| && order[i] == k;
    }
  }

  /** Whatever the term, the scaffolding followed by its append has `5 - depth` operations:
      the missing containers outermost first, then the append, none after one beneath it. */
  lemma AppendAfterScaffold(pod: Pod, term: NodeSelectorTerm)
    ensures var ops := Scaffold(pod) + [Add(AppendTermPath, Term(term))];
      && 1 <= |ops| <= 5
      && |ops| == 5 - PresentDepth(pod)
      && (forall i :: 0 <= i < |ops| - 1 ==> ops[i] == ScaffoldOp(PresentDepth(pod) + i))
      && ops[|ops| - 1] == Add(AppendTermPath, Term(term))
      && AncestorsFirst(ops)
  {
    var ops := Scaffold(pod) + [Add(AppendTermPath, Term(term))];
    ScaffoldOrdered(PresentDepth(pod), ops);
  }

  /** Each emitted path is longer than the one before it, so no operation lies above an
      earlier one. */
  lemma ScaffoldOrdered(depth: nat, ops: seq<Operation>)
    requires depth <= 4 && |ops| == 5 - depth
    requires forall i :: 0 <= i < |ops| - 1 ==> ops[i] == ScaffoldOp(depth + i)
    requires ops[|ops| - 1].path == AppendTermPath
    ensures AncestorsFirst(ops)
  {
    var lengths := [|AffinityPath|, |NodeAffinityPath|, |RequiredPath|, |TermsPath|, |AppendTermPath|];
    assert forall l :: 0 <= l < 4 ==> |ScaffoldPaths[l]| == lengths[l];
    assert |AppendTermPath| == lengths[4];
    assert forall i :: 0 <= i < |ops| ==> |ops[i].path| == lengths[depth + i];
  }
}
