/**
 * The value-level logic of `useStepModel`: the read path (model to step
 * view), the write path (step pair to model through the beautifier), and
 * the re-anchoring that both the bounds watcher and the init normaliser
 * compute. The class in `UseStepModel` is specified by these functions.
 */
module StepSync {
  import opened RangeTransform

  /** The field name handed to the beautifier. */
  datatype Field = Min | Max

  /** `ModelBeautifier`: post-processes a model value freshly derived from a
      step, per field (rounding to whole currency units, for instance). */
  type Beautifier = (real, Field) -> real

  /** The default beautifier, `(model) => model`. */
  function Identity(v: real, field: Field): real {
    v
  }

  /** `options.modelBeautifier || ((model) => model)`: the beautifier the
      caller supplied, or else the identity. */
  function ResolveBeautifier(custom: Option<Beautifier>): (beautify: Beautifier)
    ensures custom.Some? ==> beautify == custom.value
    ensures custom.None? ==> forall v, f :: beautify(v, f) == v
  {
    match custom
    case Some(b) => b
    case None => Identity
  }

  /** The beautifier never moves a value derived from a slider position to
      another position. The identity satisfies it (IdentityKeepsStep); a
      rounding beautifier satisfies it when consecutive positions are more
      than one rounding unit apart in model units. */
  ghost predicate KeepsStep(c: Calculator, steps: nat, beautify: Beautifier) {
    forall s, f :: OnGrid(steps, s) ==>
      c.modelToStep(beautify(c.stepToModel(s), f)) == c.modelToStep(c.stepToModel(s))
  }

  /** Read path: each model field projected through `modelToStep`. */
  function StepView(c: Calculator, model: Bounds): Bounds {
    Bounds(c.modelToStep(model.min), c.modelToStep(model.max))
  }

  /** Write path: the model value a step pair `b` is stored as. Each field
      goes through `stepToModel`, then through the beautifier with its own
      field name; both come from the same `b`. */
  function ModelFromSteps(c: Calculator, beautify: Beautifier, b: Bounds): (m: Bounds)
    ensures (forall v, f :: beautify(v, f) == v) ==>
              m == Bounds(c.stepToModel(b.min), c.stepToModel(b.max))
  {
    Bounds(beautify(c.stepToModel(b.min), Min), beautify(c.stepToModel(b.max), Max))
  }

  /** The model value re-derived from the step the current model lands on:
      what the bounds watcher writes, and what the init normaliser compares
      against the current model. */
  function Reanchored(c: Calculator, beautify: Beautifier, model: Bounds): Bounds {
    ModelFromSteps(c, beautify, StepView(c, model))
  }

  /** The init normaliser would leave `model` as it is. */
  predicate Normalised(c: Calculator, beautify: Beautifier, model: Bounds) {
    Reanchored(c, beautify, model) == model
  }

  /** The default beautifier keeps every step. */
  lemma IdentityKeepsStep(c: Calculator, steps: nat)
    ensures KeepsStep(c, steps, Identity)
  {
  }

  /** Writing a step pair and reading the step view back gives that pair. */
  lemma ReadAfterWrite(c: Calculator, steps: nat, beautify: Beautifier, b: Bounds)
    requires RoundTrips(c, steps) && KeepsStep(c, steps, beautify)
    requires OnGridPair(steps, b)
    ensures StepView(c, ModelFromSteps(c, beautify, b)) == b
  {
  }

  /** Distinct slider positions are stored as distinct model values. */
  lemma WriteInjective(c: Calculator, steps: nat, beautify: Beautifier, b1: Bounds, b2: Bounds)
    requires RoundTrips(c, steps) && KeepsStep(c, steps, beautify)
    requires OnGridPair(steps, b1) && OnGridPair(steps, b2)
    requires ModelFromSteps(c, beautify, b1) == ModelFromSteps(c, beautify, b2)
    ensures b1 == b2
  {
    ReadAfterWrite(c, steps, beautify, b1);
    ReadAfterWrite(c, steps, beautify, b2);
  }

  /** Re-anchoring keeps the step position: the step view of the re-derived
      model is the step view of the model it was derived from. */
  lemma ReanchorKeepsStep(c: Calculator, steps: nat, beautify: Beautifier, model: Bounds)
    requires RoundTrips(c, steps) && KeepsStep(c, steps, beautify)
    requires OnGridPair(steps, StepView(c, model))
    ensures StepView(c, Reanchored(c, beautify, model)) == StepView(c, model)
  {
    ReadAfterWrite(c, steps, beautify, StepView(c, model));
  }

  /** Re-anchoring is idempotent: its result is a model the init normaliser
      leaves alone. */
  lemma ReanchorIdempotent(c: Calculator, steps: nat, beautify: Beautifier, model: Bounds)
    requires RoundTrips(c, steps) && KeepsStep(c, steps, beautify)
    requires OnGridPair(steps, StepView(c, model))
    ensures Normalised(c, beautify, Reanchored(c, beautify, model))
  {
    ReanchorKeepsStep(c, steps, beautify, model);
  }

  /** A model is left alone by the init normaliser exactly when it is a value
      the write path stores for some slider position. */
  lemma NormalisedIffWritten(c: Calculator, steps: nat, beautify: Beautifier, model: Bounds)
    requires RoundTrips(c, steps) && KeepsStep(c, steps, beautify)
    requires OnGridPair(steps, StepView(c, model))
    ensures Normalised(c, beautify, model) <==>
              exists b :: OnGridPair(steps, b) && model == ModelFromSteps(c, beautify, b)
  {
    if Normalised(c, beautify, model) {
      assert OnGridPair(steps, StepView(c, model)) && model == ModelFromSteps(c, beautify, StepView(c, model));
    }
    if b :| OnGridPair(steps, b) && model == ModelFromSteps(c, beautify, b) {
      ReadAfterWrite(c, steps, beautify, b);
    }
  }

  /** Every slider position is the step view of some model value, and of one
      the init normaliser leaves alone. */
  lemma EveryPositionReachable(c: Calculator, steps: nat, beautify: Beautifier, b: Bounds)
    requires RoundTrips(c, steps) && KeepsStep(c, steps, beautify)
    requires OnGridPair(steps, b)
    ensures exists m :: StepView(c, m) == b && Normalised(c, beautify, m)
  {
    var m := ModelFromSteps(c, beautify, b);
    ReadAfterWrite(c, steps, beautify, b);
    assert StepView(c, m) == b && Normalised(c, beautify, m);
  }
}
