# StatefulSet affinity injector: the mutation decision engine

This project models the core of a Kubernetes mutating admission webhook in Dafny and proves
properties of the model. The webhook steers replica *N* of a StatefulSet onto a node whose labels
match the *N*-th configured value. The model covers the decisions in `src/util.go`:

- **Resource-kind gate** (`getPodFromAdmissionRequest`): only requests for the `pods` resource
  are decoded.
- **Opt-in gate** (`getMutationConfig`): the enable annotation
  `statefulset-affinity-injector-webhook.hsiam261.github.io/enabled` must be present and read as
  true by Go's `strconv.ParseBool`. The config annotation `.../config` must be present and must
  parse as a map from label key to a list of values.
- **Ordinal extractor** (`getStatefulsetPodIndex`): the last `-`-separated piece of the Pod name is
  read with `strconv.Atoi`.
- **Affinity patch builder** (`getPodPatch`): a JSON Patch. It holds one `add` for each missing
  container of `spec.affinity.nodeAffinity.requiredDuringSchedulingIgnoredDuringExecution.nodeSelectorTerms`,
  outermost first. Then it appends one selector term with an `In` requirement per configured key.
  Each requirement's single value is `vals[index % len(vals)]`.

Layout:

- `wrappers.dfy`: `Option` and `Result`.
- `gostrings.dfy`: the pieces of Go's `strings.Split`, `strconv.Atoi` and `strconv.ParseBool`
  that the engine relies on. `int` is taken as 64 bits wide.
- `kube.dfy`: the Pod, its node-affinity tree and the admission request. Every pointer or slice
  whose nil-ness the engine tests is an `Option`. The slices inside a selector term
  (`matchExpressions`, `matchFields`, a requirement's `values`) are plain sequences: the engine
  never tests them, and a nil and an empty one encode alike.
- `jsonpatch.dfy`: `add` operations, JSON Pointer ancestry, and what an `add` does to the Pod
  (section 4.1 of RFC 6902: the parent of the target must exist; section 4 of RFC 6901: `-`
  appends to an array). This is the reference the patch builder is checked against.
- `injector.dfy`: the four operations of `src/util.go`.
- `injector_proofs.dfy`: properties that relate several calls, and the worked scenarios.

Foreign code is passed in as parameters:

- JSON decoding of the Pod bytes is a function `seq<byte> -> Option<Pod>`.
- JSON decoding of the config annotation is a function `string -> Option<MutationConfig>`.
- Go leaves the iteration order of a map unspecified. The order is the parameter `order`, which
  must list every configured key exactly once.
- The term's contents are therefore stated as a set of requirements (`SelectsOrdinal`), not as a
  fixed sequence.

A configured key with an empty value list makes Go panic on the `%` at `src/util.go:130`. The
model returns this panic as the error `ModuloByZero`, and only after the ordinal check, as in the
source.

## Model

| member | source | states |
|---|---|---|
| Injector.GetPodFromAdmissionRequest | src/util.go:24-37 | Any resource other than `pods` gives `UnexpectedResource` and no Pod. Otherwise it succeeds exactly when the object bytes decode, and returns the decoded Pod. |
| InjectorProofs.KindCheckPrecedesDecoding | src/util.go:25-31 | For a resource other than `pods`, the outcome does not depend on the object bytes or on the decoder. The kind check comes before decoding. |
| Injector.GetMutationConfig | src/util.go:39-63 | There are four failures, each stated as an if-and-only-if: enable annotation absent; present but not a ParseBool true literal; enabled but config annotation absent; config does not parse. Success happens exactly otherwise, and the result is the parsed config. |
| InjectorProofs.EnabledSpellings | src/util.go:45-48 | The gate refuses with `NotEnabled` exactly when ParseBool does not return true. Text ParseBool rejects counts as not enabled. |
| InjectorProofs.DisabledScenario | src/util.go:45-48 | A Pod annotated `enabled: "false"` gets `NotEnabled`, whatever its other annotations and its config. |
| GoStrings.ParseBool | src/util.go:45 | True exactly for `1 t T TRUE true True`, false exactly for `0 f F FALSE false False`, and an error for everything else. |
| GoStrings.ParseFormatBool | src/util.go:45 | ParseBool reads back what FormatBool writes. |
| GoStrings.Split | src/util.go:66 | The pieces are non-empty in number and free of the separator, and joining them with the separator gives back the input. |
| GoStrings.SplitJoin | src/util.go:66 | Splitting the join of separator-free pieces recovers exactly those pieces, so Split is the unique such decomposition. |
| GoStrings.LastSegment | src/util.go:66-67 | The last piece holds no separator. It is either the whole input or its suffix after the last separator. |
| GoStrings.LastSegmentOfSuffix | src/util.go:66-67 | The last piece of `prefix + "-" + seg` is `seg` when `seg` holds no `-`, whatever dashes `prefix` holds. |
| GoStrings.Atoi | src/util.go:69 | Success happens exactly when the text is an optional sign followed by at least one digit (leading zeros allowed) whose signed value lies in the int64 range. The result is that signed value. |
| GoStrings.AtoiItoa | src/util.go:69 | Atoi reads back every int64 that Itoa writes. |
| GoStrings.DecimalValue | src/util.go:69 | Reading the decimal spelling of `n` gives `n`. |
| Injector.GetStatefulSetPodIndex | src/util.go:65-75 | It succeeds exactly when the last `-` piece of the name is an optional `+` then digits, with value at most 2^63-1. The result is that value and is never negative. Any other case is `NoIndexSuffix`. |
| InjectorProofs.OrdinalNameRoundTrip | src/util.go:66-74 | A Pod named `<prefix>-<k>` has ordinal `k`. |
| InjectorProofs.BareOrdinalName | src/util.go:66-74 | A name that is only the digits of `k` has ordinal `k`. |
| InjectorProofs.TrailingDashHasNoOrdinal | src/util.go:66-72 | A name ending in `-` has an empty last piece and fails. |
| InjectorProofs.StandaloneScenario | src/util.go:78-81 | The Pod `standalone` gets `NoIndexSuffix` and no operations. |
| Injector.Scaffold | src/util.go:83-123 | One `add` per missing container, outermost first. Their number is 4 minus the number of containers present. |
| Injector.ScaffoldIffAbsent | src/util.go:84-123 | The `add` for a container is emitted exactly when that container is absent. |
| Injector.ScaffoldOrdered | src/util.go:83-144 | In the emitted sequence, no operation comes after one on a location beneath it. |
| Injector.SelectValue | src/util.go:130 | The value picked for a key is always one of that key's configured values, whatever the ordinal. |
| Injector.Requirements | src/util.go:125-132 | One requirement per key visited, in visiting order. Each names that key, has operator `In`, and holds exactly one value, the one the ordinal selects from the key's list. |
| Injector.RequirementsSelectOrdinal | src/util.go:125-136 | For every key order, the term holds exactly one requirement per configured key, with distinct keys. Each has operator `In` and the single value `vals[index % len(vals)]`. The term has no field requirement. |
| Injector.AppendAfterScaffold | src/util.go:83-144 | Whatever the term, scaffolding plus its append has `5 - depth` operations: the missing containers outermost first, then the append last, with no operation after one beneath it. |
| Injector.AffinityPatchShape | src/util.go:83-146 | Scaffolding followed by the append has the full shape of a successful patch. |
| Injector.GetPodPatch | src/util.go:77-147 | An unreadable ordinal gives `NoIndexSuffix` and no operations. An empty value list gives `ModuloByZero`; success happens exactly otherwise. A success has 1 to 5 operations, `5 - depth` of them. They are the scaffolding for the missing containers, then an append at `.../nodeSelectorTerms/-` of a term that selects the ordinal's values. Ancestors come first. |
| InjectorProofs.ScaffoldPathsNest | src/util.go:88-140 | Each scaffold path is the parent of the next, one reference token deeper, and the append position is a direct child of the term list. |
| InjectorProofs.GrandparentIsNotParent | src/util.go:88-108 | The affinity container lies beneath the required selector's path but is not its parent, so parenthood is strictly one token. |
| InjectorProofs.ScaffoldStep | src/util.go:84-123 | Creating the outermost missing container succeeds and deepens the tree by one level. Nothing else that the final Pod keeps is changed. |
| InjectorProofs.ScaffoldThenAppend | src/util.go:84-144 | Applying scaffolding plus append appends the term after the existing terms. Missing containers are created and nothing else changes. |
| InjectorProofs.PatchAppliesCleanly | src/util.go:83-146 | Every `add` of the patch finds its parent when applied in order. The result is the Pod with the new term appended to its required node selector terms. |
| InjectorProofs.SecondRunAppendsOnly | src/util.go:84-146 | Re-running the builder on the patched Pod emits no scaffolding, only the append of the same term. |
| InjectorProofs.SelectionIsPeriodic | src/util.go:130 | Adding whole rounds of the list length to the ordinal selects the same value. |
| InjectorProofs.RequirementsCongruent | src/util.go:125-132 | Ordinals congruent modulo every list length give identical requirements. |
| InjectorProofs.CongruentOrdinalsSameTerm | src/util.go:125-144 | Two Pods whose ordinals are congruent modulo every list length get the same appended term. |
| InjectorProofs.Web2Scenario | src/util.go:77-147 | For `web-2` without affinity and config `{"zone": ["a","b","c"]}`, the patch is four scaffolding adds and then a term `zone In [c]`. |
| InjectorProofs.FullScaffold | src/util.go:84-123 | A Pod without affinity gets all four containers, in order. |
| InjectorProofs.EmptyValueListPanics | src/util.go:130 | With config `{"zone": []}`, replica `web-0` reaches the division by zero. |
| Injector.GetCheckedMutationConfig | src/util.go:56-62 | Corrected gate: it agrees with GetMutationConfig but rejects a config with an empty value list as malformed. |
| InjectorProofs.CheckedConfigNeverPanics | src/util.go:125-131 | With a config from the corrected gate, the builder never divides by zero. It succeeds exactly when the ordinal can be read. |

## Left out

- `getAdmissionReviewFromRequest` (src/util.go:14-22) is left out. It only JSON-decodes the review envelope.
- JSON decoding (`json.Unmarshal`, `json.NewDecoder`) and encoding are foreign library code. They
  are function parameters or are not modelled. This covers, for example, a config of `null`
  decoding to an empty map, or duplicate JSON keys.
- `src/main.go` is left out in full: HTTP handlers, routing, TLS, flags, signals and graceful
  shutdown. So is the admission response envelope. These are transport code.
- The handlers go on running after `http.Error`. That is transport behaviour and is not modelled.
- StatefulSet annotation propagation (`getStatefulSetFromAdmissionRequest`, `getStatefulSetPatch`,
  called at src/main.go:107 and 119) is left out.
- `src/types.go` holds only an interface alias over Kubernetes library types.
- `getPodPatch` writes empty containers into the caller's Pod (src/util.go:85, 95, 105) to decide
  which later levels to scaffold. The model is pure. No caller reads those writes.
- The error messages, and logging.
- GoStrings.Atoi: syntax errors and range errors both become `None`. The caller discards the
  kind of error.
- GoStrings.Atoi: `int` is taken as 64 bits wide. A 32-bit build would reject ordinals above
  2^31-1.
- The Pod fields the engine never reads are opaque placeholders: pod affinity, anti-affinity,
  preferred node affinity and the rest of the spec. They exist only so that the patch can be
  shown to leave them alone.

## Findings

| source | as written | input that shows it | evidently intended | confidence | as-written member | corrected member |
|---|---|---|---|---|---|---|
| src/util.go:130 | The config is accepted with any value lists. The selection `vals[podIndex % len(vals)]` then divides by zero for an empty list, so the handler panics. | Pod `web-0`, `enabled: "true"`, config `{"zone": []}` | A config with an empty value list is rejected at src/util.go:56-62, so the selection at src/util.go:130 never runs with `len(vals) == 0` | not executed; medium | InjectorProofs.EmptyValueListPanics | Injector.GetCheckedMutationConfig |
