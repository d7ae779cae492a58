# KPA scaler: scale decision and config cell

A Dafny model of the scaler that the Knative Pod Autoscaler (KPA) reconciler uses to
push a replica count onto a PodAutoscaler's scale target
(`pkg/reconciler/v1alpha1/autoscaling/kpa_scaler.go`). It covers three parts:

- `applyBounds`, the clamp of a replica count into `[min, max]`, where `max == 0` means no upper bound;
- `Scale`, which reads the target's current replica count, runs the scale-to-zero gate
  (Activating / Active / Inactive, idle period, grace period), scales from zero, clamps,
  and issues at most one update of the scale sub-resource;
- the config cell (`receiveAutoscalerConfig` / `getAutoscalerConfig`) holding an optional
  autoscaler config. A failed parse keeps the old config, or is fatal when there is none.

Files:

- `wrappers.dfy`: `Option` and `Result`.
- `scale_decision.dfy` (module `ScaleDecision`): Go's `int32` as a newtype, `ScaleUnknown`,
  the PodAutoscaler as the scaler sees it, `ApplyBounds`, and `Decide`. `Decide` is the
  specification function of `Scale` after the replica count has been read. The lemmas
  about the decision are here too.
- `kpa_scaler.dfy` (module `KpaScaler`): the class `ScaleClient` stands for the remote
  scale sub-resource. It has a `replicas` field, counters for gets and updates, and fixed
  failure flags. The class `KpaScaler` has the `config: Option<Config>` field and the
  methods `ReceiveConfig`, `GetConfig` and `Scale`. `Scale` is imperative, like the Go code:
  it reassigns a local `desired`. Its postcondition ties the result and the new remote
  state to `Decide`.

Modelling choices:

- Owner check and API-version parse are booleans on the PodAutoscaler value
  (`ownedByRevision`, `apiVersionParses`). Kubernetes does both outside this file.
- `CanMarkInactive` and `CanScaleToZero` read the clock and the Active condition's
  transition time. They are fields of type `Duration -> bool`. `Decide` and `Scale` apply
  them to the periods of the config snapshot, just as the source does at lines 146 and 153.
- The scale bounds come from `kpa.ScaleBounds()`, which reads annotations. They are the
  fields `minScale` and `maxScale`. `ApplyBounds` and `Scale` take any bounds. The
  properties that need `0 <= min` and `min <= max` (or `max == 0`) assume them explicitly
  through `ValidBounds`.
- If no config was ever installed and a zero suggestion reaches an Active or Inactive
  target, the source reads a field through the nil pointer that `getAutoscalerConfig`
  returns, assuming the usual generated deep copy, which maps nil to nil. That is a panic.
  The model reports it as the `NilConfig` decision and the `NilConfigDereference` error. An
  Activating target never reads the config, so it goes on without one.
- `logger.Fatalf` ends the process. `ReceiveConfig` reports it as the outcome `Fatal` and
  leaves the cell empty.

Two details of the code that are easy to misread:

- The early returns at lines 147 and 154 (Active past its idle period; Inactive within its
  grace period) return `desiredScale`, which is 0 at that point. They do not return the
  current replica count.
- An Activating target with a zero suggestion gets `ScaleUnknown` only when its current
  scale is non-zero. At zero replicas, `ScaleUnknown` then triggers scale-from-zero
  (lines 160-163), and the target is updated to `applyBounds(1)`.

## Model

| member | source | states |
|---|---|---|
| ScaleDecision.ApplyBounds | pkg/reconciler/v1alpha1/autoscaling/kpa_scaler.go:89-100 | a value below min becomes min; a value above a non-zero max (and not below min) becomes max; a value within the bounds is returned unchanged; with valid bounds the result is at least min, and at most max when max != 0 |
| ScaleDecision.ApplyBoundsIdempotent | pkg/reconciler/v1alpha1/autoscaling/kpa_scaler.go:89-100 | with valid bounds, clamping twice equals clamping once |
| ScaleDecision.ApplyBoundsMonotone | pkg/reconciler/v1alpha1/autoscaling/kpa_scaler.go:89-100 | with valid bounds, the clamp preserves order |
| ScaleDecision.ApplyBoundsOfOneIsNotZero | pkg/reconciler/v1alpha1/autoscaling/kpa_scaler.go:159-173 | the scale-from-zero value 1 never clamps to 0, for any bounds |
| ScaleDecision.ApplyBoundsExamples | pkg/reconciler/v1alpha1/autoscaling/kpa_scaler.go:89-100 | bounds [1,10] map 0, 5, 20 to 1, 5, 10; bounds (0, unbounded) keep 1000 |
| ScaleDecision.Settle | pkg/reconciler/v1alpha1/autoscaling/kpa_scaler.go:159-177 | ScaleUnknown at zero replicas becomes the clamp of 1; other negative suggestions are reported unchanged without an update; a non-negative one is clamped and pushed exactly when it differs from the current scale |
| ScaleDecision.Decide | pkg/reconciler/v1alpha1/autoscaling/kpa_scaler.go:132-177 | the outcome for each branch: Active past idle returns 0 with no update; Active before idle goes to the clamp of 1; Inactive in grace returns 0 with no update; Inactive past grace goes to the clamp of 0; Activating returns ScaleUnknown unless at zero, where it pushes the clamp of 1; other negative suggestions pass through; positive ones are clamped; the nil-config case happens exactly for a zero suggestion on a non-Activating target with no config; an update always changes the scale |
| ScaleDecision.InactiveInGraceMatchesActiveIdle | pkg/reconciler/v1alpha1/autoscaling/kpa_scaler.go:142-155 | Inactive within the grace period and Active past the idle period have the same outcome: 0, no update |
| ScaleDecision.ActiveIdlePeriodScenarios | pkg/reconciler/v1alpha1/autoscaling/kpa_scaler.go:142-150 | with a 5-minute idle period and 3 replicas: active 6 minutes returns 0 with no update; active 1 minute updates to 1 |
| ScaleDecision.ScaleToZeroOnlyAfterGracePeriod | pkg/reconciler/v1alpha1/autoscaling/kpa_scaler.go:132-182 | with valid bounds, an update to 0 replicas happens only for a zero suggestion on an Inactive target past its grace period with minimum 0 |
| ScaleDecision.UpdatesRespectBounds | pkg/reconciler/v1alpha1/autoscaling/kpa_scaler.go:165-182 | with valid bounds, every updated replica count lies within them |
| ScaleDecision.DecisionIsStable | pkg/reconciler/v1alpha1/autoscaling/kpa_scaler.go:159-182 | after one successful update, the same inputs cause no further update |
| ScaleDecision.ConvergesAfterOneRound | pkg/reconciler/v1alpha1/autoscaling/kpa_scaler.go:170-182 | any number of reconciliations with unchanged inputs leave the replica count where the first one put it |
| KpaScaler.ScaleClient.Get | pkg/reconciler/v1alpha1/autoscaling/kpa_scaler.go:125-130 | one get; it yields the remote replica count, or fails |
| KpaScaler.ScaleClient.Update | pkg/reconciler/v1alpha1/autoscaling/kpa_scaler.go:181-182 | one update; on success the remote count becomes the new value; on failure it is unchanged |
| KpaScaler.KpaScaler.constructor | pkg/reconciler/v1alpha1/autoscaling/kpa_scaler.go:55-59 | a new scaler has no config |
| KpaScaler.KpaScaler.ReceiveConfig | pkg/reconciler/v1alpha1/autoscaling/kpa_scaler.go:67-81 | a successful parse replaces the config; a failed parse keeps an existing config; a failed parse with none is fatal; an installed config is never lost |
| KpaScaler.KpaScaler.GetConfig | pkg/reconciler/v1alpha1/autoscaling/kpa_scaler.go:83-87 | the snapshot is the stored config |
| KpaScaler.KpaScaler.Scale | pkg/reconciler/v1alpha1/autoscaling/kpa_scaler.go:103-190 | not owned by a Revision: returns desiredScale with no get or update; unparsable API version or failed get: returns desiredScale with the error and no update; otherwise returns and applies Decide's outcome on the count it read, with exactly one update when Decide pushes. After a successful update the remote count is the returned value. After a failed one the count is unchanged and the clamped value is still returned with the error. At most one get and one update |

## Left out

- `pkg/reconciler/v1alpha1/revision/resources/utils/utils.go` (serialising custom data into Service annotations): a JSON wrapper with no logic of its own.
- The config mutex and concurrent callers: the config cell is modelled as a sequential atomic cell. `DeepCopy` is left out because configs are immutable values.
- The config-map parse (`autoscaler.NewConfigFromConfigMap`) is modelled only by its result, an `Ok` config or an `Err`.
- `metav1.GetControllerOf`, `schema.ParseGroupVersion`, `apis.KindToResource` and the scale client: the owner check and the API-version parse are booleans; the scale resource is `ScaleClient`, with fixed failure flags.
- The time arithmetic behind `CanMarkInactive` and `CanScaleToZero`, which belongs to the status model: the two predicates are given functions of the period.
- Logging, `context`, `NewKPAScaler`'s client wiring and the config-map watcher registration.
- KpaScaler.KpaScaler.Scale: the nil-config panic is modelled as a returned error, not as a crash of the process.
