/** JSON Patch (RFC 6902) `add` operations addressed by JSON Pointers (RFC 6901), and the
    meaning of such an `add` on the node-affinity tree of a Pod. */
module JsonPatch {
  import opened Wrappers
  import opened Kube

  /** A JSON Pointer (RFC 6901): `/`-prefixed reference tokens. */
  type Path = string

  /** The values the webhook writes: `{}`, `[]`, or one node selector term. */
  datatype Value = EmptyObject | EmptyArray | Term(term: NodeSelectorTerm)

  /** `{"op": "add", "path": ..., "value": ...}`; the webhook emits no other operation. */
  datatype Operation = Add(path: Path, value: Value)

  /** `b` lies strictly beneath `a`: the tokens of `a` are a proper prefix of those of `b`. */
  predicate IsAncestor(a: Path, b: Path)
  {
    |a| < |b| && b[..|a|] == a && b[|a|] == '/'
  }

  /** `b` lies directly beneath `a`: one reference token deeper. */
  predicate IsParent(a: Path, b: Path)
  {
    IsAncestor(a, b) && '/' !in b[|a| + 1..]
  }

  /** No operation comes after an operation on a location beneath it. */
  predicate AncestorsFirst(ops: seq<Operation>)
  {
    forall i, j :: 0 <= i < j < |ops| ==> !IsAncestor(ops[j].path, ops[i].path)
  }

  // ---------------------------------------------------------------------------
  // Locations of the Pod's required node-affinity tree
  // ---------------------------------------------------------------------------

  const AffinityPath: Path := "/spec/affinity"
  const NodeAffinityPath: Path := AffinityPath + "/" + "nodeAffinity"
  const RequiredPath: Path := NodeAffinityPath + "/" + "requiredDuringSchedulingIgnoredDuringExecution"
  const TermsPath: Path := RequiredPath + "/" + "nodeSelectorTerms"
  /** `-` is the position past the last element of an array (section 4 of RFC 6901). */
  const AppendTermPath: Path := TermsPath + "/" + "-"

  /** The four containers above a new term, outermost first. */
  const ScaffoldPaths: seq<Path> := [AffinityPath, NodeAffinityPath, RequiredPath, TermsPath]

  /** The `add` that creates the container at `level` empty. */
  function ScaffoldOp(level: nat): Operation
    requires level < 4
  {
    Add(ScaffoldPaths[level], if level == 3 then EmptyArray else EmptyObject)
  }

  function NodeAffinityOf(pod: Pod): Option<NodeAffinity>
  {
    match pod.spec.affinity
    case None => None
    case Some(a) => a.nodeAffinity
  }

  function RequiredOf(pod: Pod): Option<NodeSelector>
  {
    match NodeAffinityOf(pod)
    case None => None
    case Some(na) => na.requiredDuringSchedulingIgnoredDuringExecution
  }

  function TermsOf(pod: Pod): Option<seq<NodeSelectorTerm>>
  {
    match RequiredOf(pod)
    case None => None
    case Some(ns) => ns.nodeSelectorTerms
  }

  /** How many of the four containers exist, counted from the top. */
  function PresentDepth(pod: Pod): (d: nat)
    ensures d <= 4
    ensures d == 4 <==> TermsOf(pod).Some?
  {
    if pod.spec.affinity.None? then 0
    else if NodeAffinityOf(pod).None? then 1
    else if RequiredOf(pod).None? then 2
    else if TermsOf(pod).None? then 3
    else 4
  }

  /** The existing required terms; none when a container is missing. */
  function ExistingTerms(pod: Pod): seq<NodeSelectorTerm>
  {
    TermsOf(pod).GetOr([])
  }

  /** `pod` with its required terms set to `ts`: missing containers are created empty and
      every other field is kept. */
  function WithTerms(pod: Pod, ts: seq<NodeSelectorTerm>): (p: Pod)
    ensures p.metadata == pod.metadata && p.spec.rest == pod.spec.rest
    ensures TermsOf(p) == Some(ts)
  {
    var a := pod.spec.affinity.GetOr(Affinity(None, None, None));
    var na := a.nodeAffinity.GetOr(NodeAffinity(None, None));
    var ns := na.requiredDuringSchedulingIgnoredDuringExecution.GetOr(NodeSelector(None));
    var ns' := ns.(nodeSelectorTerms := Some(ts));
    var na' := na.(requiredDuringSchedulingIgnoredDuringExecution := Some(ns'));
    pod.(spec := pod.spec.(affinity := Some(a.(nodeAffinity := Some(na')))))
  }

  // ---------------------------------------------------------------------------
  // The `add` operation on a Pod (section 4.1 of RFC 6902)
  // ---------------------------------------------------------------------------

  /** Applies one `add`. `None` when the target's parent does not exist (the operation is
      rejected), or when the path or value does not fit the Pod's node-affinity schema. */
  function ApplyOp(pod: Pod, op: Operation): Option<Pod>
  {
    if op.path == AffinityPath then
      if op.value != EmptyObject then None
      else Some(pod.(spec := pod.spec.(affinity := Some(Affinity(None, None, None)))))
    else if op.path == NodeAffinityPath then
      if op.value != EmptyObject || pod.spec.affinity.None? then None
      else
        var a := pod.spec.affinity.value;
        Some(pod.(spec := pod.spec.(affinity := Some(a.(nodeAffinity := Some(NodeAffinity(None, None)))))))
    else if op.path == RequiredPath then
      if op.value != EmptyObject || NodeAffinityOf(pod).None? then None
      else
        var a := pod.spec.affinity.value;
        var na := NodeAffinityOf(pod).value.(requiredDuringSchedulingIgnoredDuringExecution := Some(NodeSelector(None)));
        Some(pod.(spec := pod.spec.(affinity := Some(a.(nodeAffinity := Some(na))))))
    else if op.path == TermsPath then
      if op.value != EmptyArray || RequiredOf(pod).None? then None
      else Some(WithTerms(pod, []))
    else if op.path == AppendTermPath then
      if !op.value.Term? || TermsOf(pod).None? then None
      else Some(WithTerms(pod, TermsOf(pod).value + [op.value.term]))
    else None
  }

  /** Applies the operations in order; the whole patch fails when one operation fails
      (section 5 of RFC 6902). */
  function ApplyPatch(pod: Pod, ops: seq<Operation>): Option<Pod>
    decreases |ops|
  {
    if |ops| == 0 then Some(pod)
    else
      match ApplyOp(pod, ops[0])
      case None => None
      case Some(p) => ApplyPatch(p, ops[1..])
  }
}
