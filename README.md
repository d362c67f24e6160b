# useStepModel — a Dafny model of the step/model synchronisation layer

`useStepModel` (vue-exponential-slider) keeps two views of one `{min, max}`
range consistent:

- the caller's **model** pair, in domain units (currency, distance, ...);
- a derived **step** pair, in integer slider positions `0 .. steps`.

The conversion between the two is done by an external range-transform
package (`useExponentialSlider`, built from the step count, the source
bounds and an optional linear config). On top of it the layer has four
behaviours: a read path (model to step view), a write path (step pair to
model through an optional per-field beautifier), a bounds watcher that
re-anchors the model when the source bounds change, and an init normaliser
that does the same once at construction and writes only if something
changes.

The project has three modules:

- `RangeTransform` (`range_transform.dfy`): the package's interface. A
  transform (`Calculator`) is any pair of functions `modelToStep`,
  `stepToModel`; a `Factory` builds one from `(steps, bounds, linearConfig)`.
  What the layer relies on is stated as predicates: `RoundTrips` (the step
  round trip `modelToStep(stepToModel(s)) == s` for every position `s`) and
  `Quantises` (`modelToStep` lands on a position). Lemmas take them as
  hypotheses; nothing is assumed globally.
- `StepSync` (`step_sync.dfy`): the read path `StepView`, the write path
  `ModelFromSteps`, the re-anchored model `Reanchored` that both the watcher
  and the init normaliser compute, the `Normalised` fixed-point predicate, and
  the lemmas relating them. `KeepsStep` says a beautifier never moves a
  value derived from a position to another position; the identity does.
- `UseStepModel` (`use_step_model.dfy`): the class `StepModel`. Its fields
  are the caller's model ref, the current step count, source bounds and
  linear config, and a count of assignments to the model ref (each one
  notifies the ref's observers, which makes the no-op guards observable).
  The setter, the bounds watcher and the init normaliser are methods with
  `modifies` frames naming only the model and the write count, so steps,
  bounds and linear config are unchanged by them.

Numbers are `real`. Step positions are reals that satisfy `OnGrid`
(an integer in `[0, steps]`), so one `Bounds` type carries both views, as
`useStepModel`'s own `Bounds` type does.

## Model

| member | source | states |
|---|---|---|
| StepSync.ResolveBeautifier | src/index.ts:43-44 | a supplied beautifier is used as is; with none, the beautifier returns every value unchanged |
| StepSync.ModelFromSteps | src/index.ts:64-70 | with an identity beautifier the write path stores exactly `stepToModel` of each step field |
| StepSync.IdentityKeepsStep | src/index.ts:43-44 | the default beautifier never moves a written value to another slider position |
| StepSync.ReadAfterWrite | src/index.ts:55-70 | under the step round trip and a step-keeping beautifier, writing any on-grid pair and reading the step view back gives that pair |
| StepSync.WriteInjective | src/index.ts:64-70 | under the same laws, two different slider positions are never stored as the same model pair |
| StepSync.ReanchorKeepsStep | src/index.ts:103-108 | re-deriving the model from its current step leaves the step view unchanged |
| StepSync.ReanchorIdempotent | src/index.ts:112-127 | the re-derived model is a fixed point: re-deriving it again gives the same model |
| StepSync.NormalisedIffWritten | src/index.ts:112-127 | the init normaliser leaves a model alone exactly when the write path stores that model for some slider position (both directions) |
| StepSync.EveryPositionReachable | src/index.ts:55-70 | every on-grid step pair is the step view of some model, and of one the init normaliser leaves alone |
| UseStepModel.StepModel.Get | src/index.ts:55-63 | the getter projects the current model through the current transform; with a quantising transform both fields are slider positions |
| UseStepModel.StepModel.ModelToStep | src/index.ts:132-134 | the pass-through agrees with the step view on the model's own fields and lands on the grid for a quantising transform |
| UseStepModel.StepModel.StepToModel | src/index.ts:135-137 | the pass-through is undone by `ModelToStep` on every slider position |
| UseStepModel.StepModel.constructor | src/index.ts:29-52 | records the sources and options; the beautifier defaults to the identity; with `fixModelOnInit` the model is re-anchored, with a write only if it differed, otherwise it is left untouched |
| UseStepModel.StepModel.Set | src/index.ts:64-70 | the model becomes the write-path value of `b` in one assignment, and nothing else changes; with the laws and an on-grid `b` a read gives `b` back |
| UseStepModel.StepModel.SetBounds | src/index.ts:235-240 | a change of source bounds alone leaves the model value as it was; the step view becomes that value under the new transform |
| UseStepModel.StepModel.OnBoundsChange | src/index.ts:73-109 | called with the previous bounds, the new value being the current source bounds the transform is built from; equal bounds, or no watcher, change nothing and write nothing; otherwise the model is re-anchored under the new transform with one write, the step view is kept, and the new model is normalised |
| UseStepModel.StepModel.FixModelOnInit | src/index.ts:112-128 | the model becomes the re-anchored value, written only if it differs from the current model; with the laws the step view is kept and the result is normalised, so a second run writes nothing |
| UseStepModel.WriteThenRead | src/index.ts:356-394 | with the default options construction leaves the model alone, so the getter reads the caller's model; writing an on-grid pair stores `stepToModel` of each field and reads back as that pair; needs only the round trip at the bounds in use |
| UseStepModel.FixThenWatch | src/index.ts:314-354 | construction with both flags gives the re-anchored model, normalised when the laws hold for the first bounds; after a bounds change the watcher settles on the re-anchored value of that model under the new bounds, keeps its step and leaves a normalised model; the laws are required only for the new bounds |

## Left out

- The transform curve (`useExponentialSlider`, `modelToStep`, `stepToModel` from the `wucdbm-exponential-slider` package) is abstract: any pair of functions. Its guarantees are the predicates `RoundTrips` and `Quantises`, taken as hypotheses.
- Floating point: values are exact reals. The concrete numbers in the tests (826, 10500, 112254.2, 16067, 25620, 25575, 8022) depend on the unseen curve and on IEEE arithmetic, and are not reproduced.
- Beautifiers such as `Math.round`, `Math.floor` and `Math.ceil` are arbitrary function parameters; `KeepsStep` is the only property assumed of them, and only where a lemma says so.
- The resolved-config pass-through (`config`, src/index.ts:138) is not modelled: it only exposes an opaque snapshot of the package.
- Vue reactivity: `computed` memoisation is replaced by rebuilding the transform from the current inputs on every use, which gives the same values. `watch` subscription and the `nextTick` deferral are replaced by the host calling `OnBoundsChange` after `SetBounds`; between the two calls `Get` shows the old model under the new transform, which is what a read before the deferred watcher sees.
- `JSON.stringify` comparisons are structural equality of pairs; key order, `NaN` and `-0` serialisation are not modelled.
- `steps`, `bounds` and `linearConfig` may be refs, getters or plain values in the source; here they are the current values held by the object. The step count is a `nat`.
- A beautifier that throws cannot be expressed: Dafny functions are total, so every write is whole.
- Observers of the model ref are not modelled beyond the `writes` count.
- vite.config.ts is build configuration and has no logic to model.
