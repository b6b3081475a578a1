/** The slice of the Kubernetes object model the webhook reads: Pod metadata, the Pod's
    node-affinity tree, and the admission request that carries a Pod. Every pointer or slice
    whose nil-ness the engine tests is an `Option`. The slices inside a term are plain
    sequences: the engine never tests them, and a nil and an empty one encode alike (both are
    `omitempty`). */
module Kube {
  import opened Wrappers

  newtype byte = x: int | 0 <= x < 256

  /** Content of a field the webhook never inspects, kept only so that a patch can be shown
      to leave it alone. */
  datatype Opaque = Opaque(raw: string)

  datatype ObjectMeta = ObjectMeta(name: string, namespace: string, annotations: map<string, string>)

  /** One `key operator values` condition on node labels. */
  datatype NodeSelectorRequirement = NodeSelectorRequirement(key: string, operator: string, values: seq<string>)

  /** A conjunction of requirements on node labels (`matchExpressions`) and on node fields
      (`matchFields`). */
  datatype NodeSelectorTerm = NodeSelectorTerm(
    matchExpressions: seq<NodeSelectorRequirement>,
    matchFields: seq<NodeSelectorRequirement>)

  /** A disjunction of terms; `None` is a nil `NodeSelectorTerms` slice. */
  datatype NodeSelector = NodeSelector(nodeSelectorTerms: Option<seq<NodeSelectorTerm>>)

  datatype NodeAffinity = NodeAffinity(
    requiredDuringSchedulingIgnoredDuringExecution: Option<NodeSelector>,
    preferredDuringSchedulingIgnoredDuringExecution: Option<Opaque>)

  datatype Affinity = Affinity(
    nodeAffinity: Option<NodeAffinity>,
    podAffinity: Option<Opaque>,
    podAntiAffinity: Option<Opaque>)

  /** `rest` stands for every other field of the Pod spec. */
  datatype PodSpec = PodSpec(affinity: Option<Affinity>, rest: Opaque)

  datatype Pod = Pod(metadata: ObjectMeta, spec: PodSpec)

  datatype GroupVersionResource = GroupVersionResource(group: string, version: string, resource: string)

  /** The admission request: correlation id, requested resource and the raw serialized object. */
  datatype AdmissionRequest = AdmissionRequest(uid: string, resource: GroupVersionResource, raw: seq<byte>)
}
