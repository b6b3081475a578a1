/** Properties relating several calls of the decision engine: what the patch does once
    applied, what a second run emits, how the selection repeats with the ordinal, and the
    worked scenarios. */
module InjectorProofs {
  import opened Wrappers
  import opened GoStrings
  import opened Kube
  import opened JsonPatch
  import opened Injector

  // ---------------------------------------------------------------------------
  // Resource-kind gate
  // ---------------------------------------------------------------------------

  /** For a resource other than `pods` the outcome does not depend on the object bytes or on
      how they would decode: the kind is checked first. */
  lemma KindCheckPrecedesDecoding(request: AdmissionRequest, decode1: seq<byte> -> Option<Pod>,
                                  decode2: seq<byte> -> Option<Pod>, raw: seq<byte>)
    requires request.resource.resource != "pods"
    ensures GetPodFromAdmissionRequest(request, decode1)
         == GetPodFromAdmissionRequest(request.(raw := raw), decode2)
         == Failure(UnexpectedResource(request.resource))
  {
  }

  // ---------------------------------------------------------------------------
  // Opt-in gate
  // ---------------------------------------------------------------------------

  /** Every ParseBool spelling of true opts in; every other text, including the false
      spellings and text ParseBool rejects, does not. */
  lemma EnabledSpellings(pod: Pod, parseConfig: string -> Option<MutationConfig>)
    requires EnabledAnnotation in pod.metadata.annotations
    ensures var v := pod.metadata.annotations[EnabledAnnotation];
      GetMutationConfig(pod, parseConfig) != Failure(NotEnabled) <==> ParseBool(v) == Some(true)
  {
  }

  /** A Pod annotated `enabled: "false"` is not mutated, whatever its other annotations and
      its config say. */
  lemma DisabledScenario(pod: Pod, parseConfig: string -> Option<MutationConfig>)
    requires EnabledAnnotation in pod.metadata.annotations
    requires pod.metadata.annotations[EnabledAnnotation] == FormatBool(false)
    ensures GetMutationConfig(pod, parseConfig) == Failure(NotEnabled)
  {
    ParseFormatBool(false);
  }

  // ---------------------------------------------------------------------------
  // Ordinal extractor
  // ---------------------------------------------------------------------------

  /** A Pod named `<prefix>-<k>` has ordinal `k`, whatever dashes `prefix` holds. */
  lemma OrdinalNameRoundTrip(pod: Pod, prefix: string, k: nat)
    requires k <= MaxInt64
    requires pod.metadata.name == prefix + "-" + Decimal(k)
    ensures GetStatefulSetPodIndex(pod) == Success(k)
  {
    LastSegmentOfSuffix(prefix, Decimal(k), '-');
    DecimalValue(k);
    assert OrdinalDigits(Decimal(k)) == Decimal(k);
  }

  /** A name that is only digits is its own ordinal. */
  lemma BareOrdinalName(pod: Pod, k: nat)
    requires k <= MaxInt64
    requires pod.metadata.name == Decimal(k)
    ensures GetStatefulSetPodIndex(pod) == Success(k)
  {
    assert '-' !in Decimal(k);
    DecimalValue(k);
    assert OrdinalDigits(Decimal(k)) == Decimal(k);
  }

  /** A name ending in `-` has an empty last piece and no ordinal. */
  lemma TrailingDashHasNoOrdinal(pod: Pod, prefix: string)
    requires pod.metadata.name == prefix + "-"
    ensures GetStatefulSetPodIndex(pod) == Failure(NoIndexSuffix)
  {
    LastSegmentOfSuffix(prefix, "", '-');
    assert prefix + "-" == prefix + ['-'] + "";
  }

  /** `standalone` has no ordinal, so no patch is built. */
  lemma StandaloneScenario(pod: Pod, config: MutationConfig, order: seq<string>)
    requires pod.metadata.name == "standalone"
    requires IsEnumeration(order, config.Keys)
    ensures GetPodPatch(pod, config, order) == Failure(NoIndexSuffix)
  {
    var name := pod.metadata.name;
    assert '-' !in name;
    assert LastSegment(name, '-') == name;
    assert OrdinalDigits(name) == name;
    assert !IsDigit(name[0]);
    assert GetStatefulSetPodIndex(pod).Failure?;
  }

  // ---------------------------------------------------------------------------
  // Modulo selection
  // ---------------------------------------------------------------------------

  /** Adding whole rounds of the value list to the ordinal selects the same value. */
  lemma {:induction false} SelectionIsPeriodic(vals: seq<string>, index: nat, rounds: nat)
    requires |vals| > 0
    ensures SelectValue(vals, index + rounds * |vals|) == SelectValue(vals, index)
    decreases rounds
  {
    if rounds > 0 {
      var n := |vals|;
      var previous := index + (rounds - 1) * n;
      SelectionIsPeriodic(vals, index, rounds - 1);
      assert index + rounds * n == previous + n;
      ModuloShift(previous, n);
    }
  }

  /** Adding the modulus does not change the remainder. */
  lemma ModuloShift(a: nat, n: nat)
    requires n > 0
    ensures (a + n) % n == a % n
  {
    DivModIdentity(a, n);
    DivModIdentity(a + n, n);
    var q, r := a / n, a % n;
    var q', r' := (a + n) / n, (a + n) % n;
    assert (q' - q - 1) * n == r - r';
    if q' - q - 1 > 0 {
      ScaledAtLeast(q' - q - 1, n);
    } else if q' - q - 1 < 0 {
      ScaledAtLeast(q + 1 - q', n);
    }
  }

  lemma DivModIdentity(a: nat, n: nat)
    requires n > 0
    ensures a == (a / n) * n + a % n
  {
  }

  lemma ScaledAtLeast(k: int, n: nat)
    requires k >= 1
    ensures k * n >= n
  {
  }

  /** Two Pods whose ordinals agree modulo the length of every value list receive the same
      term. */
  lemma CongruentOrdinalsSameTerm(pod1: Pod, pod2: Pod, config: MutationConfig, order: seq<string>)
    requires IsEnumeration(order, config.Keys)
    requires GetPodPatch(pod1, config, order).Success? && GetPodPatch(pod2, config, order).Success?
    requires forall k :: k in config ==>
      GetStatefulSetPodIndex(pod1).value % |config[k]| == GetStatefulSetPodIndex(pod2).value % |config[k]|
    ensures var ops1, ops2 := GetPodPatch(pod1, config, order).value, GetPodPatch(pod2, config, order).value;
      ops1[|ops1| - 1] == ops2[|ops2| - 1]
  {
    var i1, i2 := GetStatefulSetPodIndex(pod1).value, GetStatefulSetPodIndex(pod2).value;
    RequirementsCongruent(config, order, i1, i2);
    PatchShape(pod1, config, order);
    PatchShape(pod2, config, order);
  }

  /** Ordinals congruent modulo every list length give the same requirements. */
  lemma RequirementsCongruent(config: MutationConfig, keys: seq<string>, i1: nat, i2: nat)
    requires forall k :: k in keys ==> k in config && |config[k]| > 0
    requires forall k :: k in config ==> |config[k]| > 0 && i1 % |config[k]| == i2 % |config[k]|
    ensures Requirements(config, keys, i1) == Requirements(config, keys, i2)
  {
    var r1, r2 := Requirements(config, keys, i1), Requirements(config, keys, i2);
    forall i | 0 <= i < |r1|
      ensures r1[i] == r2[i]
    {
      assert keys[i] in config;
    }
  }

  /** A key with an empty value list makes the selection divide by zero: replica `web-0`
      with config `{"zone": []}` reaches the panic. */
  lemma EmptyValueListPanics(pod: Pod)
    requires pod.metadata.name == "web-0"
    ensures GetPodPatch(pod, map["zone" := []], ["zone"]) == Failure(ModuloByZero)
  {
    Web0Ordinal(pod);
    var config: MutationConfig := map["zone" := []];
    assert config.Keys == {"zone"};
    assert HasEmptyValueList(config) by {
      assert "zone" in config && |config["zone"]| == 0;
    }
  }

  /** `web-0` is replica 0. */
  lemma Web0Ordinal(pod: Pod)
    requires pod.metadata.name == "web-0"
    ensures GetStatefulSetPodIndex(pod) == Success(0)
  {
    assert Decimal(0) == "0";
    assert pod.metadata.name == "web" + "-" + Decimal(0);
    OrdinalNameRoundTrip(pod, "web", 0);
  }

  /** A configuration that passes the checked gate never reaches the division by zero: the
      patch is built whenever the ordinal can be read. */
  lemma CheckedConfigNeverPanics(pod: Pod, parseConfig: string -> Option<MutationConfig>, order: seq<string>)
    requires GetCheckedMutationConfig(pod, parseConfig).Success?
    requires IsEnumeration(order, GetCheckedMutationConfig(pod, parseConfig).value.Keys)
    ensures var config := GetCheckedMutationConfig(pod, parseConfig).value;
      && GetPodPatch(pod, config, order) != Failure(ModuloByZero)
      && (GetPodPatch(pod, config, order).Success? <==> GetStatefulSetPodIndex(pod).Success?)
  {
  }

  // ---------------------------------------------------------------------------
  // Applying the patch
  // ---------------------------------------------------------------------------

  /** Creating the outermost missing container succeeds, deepens the tree by one level and
      keeps everything that `WithTerms` keeps. */
  lemma ScaffoldStep(pod: Pod)
    requires PresentDepth(pod) < 4
    ensures var r := ApplyOp(pod, ScaffoldOp(PresentDepth(pod)));
      && r.Some?
      && PresentDepth(r.value) == PresentDepth(pod) + 1
      && ExistingTerms(r.value) == ExistingTerms(pod)
      && forall ts :: WithTerms(r.value, ts) == WithTerms(pod, ts)
  {
  }

  /** Applying the scaffolding and then the append adds the term after the existing ones,
      creating the missing containers and leaving every other field untouched. */
  lemma {:induction false} ScaffoldThenAppend(pod: Pod, t: NodeSelectorTerm)
    ensures ApplyPatch(pod, Scaffold(pod) + [Add(AppendTermPath, Term(t))])
         == Some(WithTerms(pod, ExistingTerms(pod) + [t]))
    decreases 4 - PresentDepth(pod)
  {
    var leaf := Add(AppendTermPath, Term(t));
    var ops := Scaffold(pod) + [leaf];
    var d := PresentDepth(pod);
    if d == 4 {
      assert ops == [leaf];
      assert ops[1..] == [];
    } else {
      ScaffoldStep(pod);
      var p := ApplyOp(pod, ScaffoldOp(d)).value;
      assert ops[0] == ScaffoldOp(d);
      assert ops[1..] == Scaffold(p) + [leaf];
      ScaffoldThenAppend(p, t);
    }
  }

  /** The patch applies cleanly in the order emitted: every `add` finds its parent, and the
      result is the Pod with the new term appended to its required node selector terms. */
  lemma PatchAppliesCleanly(pod: Pod, config: MutationConfig, order: seq<string>)
    requires IsEnumeration(order, config.Keys)
    requires GetPodPatch(pod, config, order).Success?
    ensures var ops := GetPodPatch(pod, config, order).value;
      var term := ops[|ops| - 1].value.term;
      && ApplyPatch(pod, ops).Some?
      && ApplyPatch(pod, ops).value == WithTerms(pod, ExistingTerms(pod) + [term])
      && TermsOf(ApplyPatch(pod, ops).value) == Some(ExistingTerms(pod) + [term])
  {
    var ops := GetPodPatch(pod, config, order).value;
    var term := ops[|ops| - 1].value.term;
    assert ops == Scaffold(pod) + [Add(AppendTermPath, Term(term))];
    ScaffoldThenAppend(pod, term);
  }

  /** Re-running the builder on the patched Pod emits no scaffolding, only the append of the
      same term. */
  lemma SecondRunAppendsOnly(pod: Pod, config: MutationConfig, order: seq<string>)
    requires IsEnumeration(order, config.Keys)
    requires GetPodPatch(pod, config, order).Success?
    ensures var ops := GetPodPatch(pod, config, order).value;
      var patched := ApplyPatch(pod, ops);
      && patched.Some?
      && GetPodPatch(patched.value, config, order) == Success([ops[|ops| - 1]])
  {
    PatchAppliesCleanly(pod, config, order);
    var ops := GetPodPatch(pod, config, order).value;
    var patched := ApplyPatch(pod, ops).value;
    SameNameSameIndex(pod, patched);
    PatchShape(pod, config, order);
    PatchShape(patched, config, order);
    assert Scaffold(patched) == [];
    var leaf := ops[|ops| - 1];
    assert GetPodPatch(patched, config, order).value == [] + [leaf];
    assert [] + [leaf] == [leaf];
  }

  /** The ordinal depends on the name alone. */
  lemma SameNameSameIndex(pod1: Pod, pod2: Pod)
    requires pod1.metadata.name == pod2.metadata.name
    ensures GetStatefulSetPodIndex(pod1) == GetStatefulSetPodIndex(pod2)
  {
  }

  /** A successful patch is the scaffolding followed by the append of the term built from the
      keys in iteration order. */
  lemma PatchShape(pod: Pod, config: MutationConfig, order: seq<string>)
    requires IsEnumeration(order, config.Keys)
    requires GetPodPatch(pod, config, order).Success?
    ensures var index := GetStatefulSetPodIndex(pod).value;
      GetPodPatch(pod, config, order).value
        == Scaffold(pod) + [Add(AppendTermPath, Term(NodeSelectorTerm(Requirements(config, order, index), [])))]
  {
  }

  // ---------------------------------------------------------------------------
  // Worked scenario and pointer strings
  // ---------------------------------------------------------------------------

  /** Pod `web-2` without affinity and config `{"zone": ["a","b","c"]}`: the four containers
      are created, then a term requiring `zone In [c]` is appended (2 mod 3 = 2). */
  lemma Web2Scenario(pod: Pod)
    requires pod.metadata.name == "web-2" && pod.spec.affinity.None?
    ensures GetPodPatch(pod, map["zone" := ["a", "b", "c"]], ["zone"]) == Success([
      Add(AffinityPath, EmptyObject),
      Add(NodeAffinityPath, EmptyObject),
      Add(RequiredPath, EmptyObject),
      Add(TermsPath, EmptyArray),
      Add(AppendTermPath, Term(NodeSelectorTerm([NodeSelectorRequirement("zone", "In", ["c"])], [])))])
  {
    Web2Ordinal(pod);
    var config := map["zone" := ["a", "b", "c"]];
    var order := ["zone"];
    assert config.Keys == {"zone"};
    assert !HasEmptyValueList(config);
    PatchShape(pod, config, order);
    var term := NodeSelectorTerm([NodeSelectorRequirement("zone", "In", ["c"])], []);
    assert Requirements(config, order, 2) == term.matchExpressions;
    FullScaffold(pod);
    assert GetPodPatch(pod, config, order).value
        == [ScaffoldOp(0), ScaffoldOp(1), ScaffoldOp(2), ScaffoldOp(3), Add(AppendTermPath, Term(term))];
  }

  /** A Pod without affinity gets all four containers, outermost first. */
  lemma FullScaffold(pod: Pod)
    requires pod.spec.affinity.None?
    ensures Scaffold(pod) == [Add(AffinityPath, EmptyObject), Add(NodeAffinityPath, EmptyObject),
                              Add(RequiredPath, EmptyObject), Add(TermsPath, EmptyArray)]
  {
    assert Scaffold(pod) == [ScaffoldOp(0), ScaffoldOp(1), ScaffoldOp(2), ScaffoldOp(3)];
  }

  /** `web-2` is replica 2. */
  lemma Web2Ordinal(pod: Pod)
    requires pod.metadata.name == "web-2"
    ensures GetStatefulSetPodIndex(pod) == Success(2)
  {
    assert Decimal(2) == "2";
    assert pod.metadata.name == "web" + "-" + Decimal(2);
    OrdinalNameRoundTrip(pod, "web", 2);
  }

  /** Each container path is the parent of the next, ending with the append position. */
  lemma ScaffoldPathsNest()
    ensures IsParent(AffinityPath, NodeAffinityPath)
    ensures IsParent(NodeAffinityPath, RequiredPath)
    ensures IsParent(RequiredPath, TermsPath)
    ensures IsParent(TermsPath, AppendTermPath)
  {
    ChildOf(AffinityPath, "nodeAffinity");
    RequiredTokenHasNoSlash();
    ChildOf(NodeAffinityPath, "requiredDuringSchedulingIgnoredDuringExecution");
    ChildOf(RequiredPath, "nodeSelectorTerms");
    ChildOf(TermsPath, "-");
  }

  /** Parenthood is strict: the affinity container is an ancestor of the required selector
      but not its parent. */
  lemma GrandparentIsNotParent()
    ensures IsAncestor(AffinityPath, RequiredPath)
    ensures !IsParent(AffinityPath, RequiredPath)
  {
    var token := "requiredDuringSchedulingIgnoredDuringExecution";
    ChildOf(AffinityPath, "nodeAffinity");
    assert RequiredPath == AffinityPath + "/" + "nodeAffinity" + "/" + token;
    assert RequiredPath[..|AffinityPath|] == AffinityPath;
    assert RequiredPath[|NodeAffinityPath|] == '/';
    assert RequiredPath[|AffinityPath| + 1..][|"nodeAffinity"|] == '/';
  }

  /** The required-selector token is a single reference token. */
  lemma RequiredTokenHasNoSlash()
    ensures '/' !in "requiredDuringSchedulingIgnoredDuringExecution"
  {
    var head, tail := "requiredDuringScheduling", "IgnoredDuringExecution";
    assert head + tail == "requiredDuringSchedulingIgnoredDuringExecution";
    assert '/' !in head && '/' !in tail;
    NoSlashInConcat(head, tail);
  }

  lemma NoSlashInConcat(a: string, b: string)
    requires '/' !in a && '/' !in b
    ensures '/' !in a + b
  {
    forall i | 0 <= i < |a + b|
      ensures (a + b)[i] != '/'
    {
      if i < |a| {
        assert (a + b)[i] == a[i];
      } else {
        assert (a + b)[i] == b[i - |a|];
      }
    }
  }

  /** Appending `/` and a token without `/` names a location directly beneath the path. */
  lemma ChildOf(a: Path, token: string)
    requires '/' !in token
    ensures IsParent(a, a + "/" + token)
  {
    assert (a + "/" + token)[..|a|] == a;
    assert (a + "/" + token)[|a| + 1..] == token;
  }
}
