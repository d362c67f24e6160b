/**
 * `useStepModel`: keeps the caller's model pair (domain units) and the
 * derived step pair (slider positions) consistent.
 *
 * The reactive refs become fields of one object: `model` is the caller's
 * model ref, `steps`, `bounds` and `linearConfig` are the current values of
 * the caller's sources, and the transform is rebuilt from them on every use
 * (`Transform`), which is what the memoised `calculator` computes. The
 * bounds watcher is the method `OnBoundsChange`, which the host calls with
 * the previous bounds once the source bounds have changed.
 */
module UseStepModel {
  import opened RangeTransform
  import opened StepSync

  /** The options object; absent flags are false, an absent beautifier is
      the identity. */
  datatype Options = Options(watchBounds: bool, fixModelOnInit: bool, modelBeautifier: Option<Beautifier>)

  /** The default options object: no watcher, no init fix, no beautifier. */
  const DefaultOptions: Options := Options(false, false, None)

  class StepModel {
    /** `model.value`, owned by the caller. */
    var model: Bounds
    /** How many times `model.value` has been assigned; every assignment
        notifies the model's observers, so a skipped write is observable. */
    var writes: nat
    /** The current values of the caller's step count, source bounds and
        linear config. */
    var steps: nat
    var bounds: Bounds
    var linearConfig: Option<LinearConfig>

    const factory: Factory
    const beautify: Beautifier
    const watchBounds: bool

    /** `calculator.value`: the transform for the current inputs. */
    function Transform(): Calculator
      reads this
    {
      factory(steps, bounds, linearConfig)
    }

    /** The laws the proofs rely on, for the current transform: the step
        round trip, and a beautifier that keeps steps. */
    ghost predicate Lawful()
      reads this
    {
      RoundTrips(Transform(), steps) && KeepsStep(Transform(), steps, beautify)
    }

    /** The `stepModel` getter. With a quantising transform both fields are
        slider positions. */
    function Get(): (r: Bounds)
      reads this
      ensures Quantises(Transform(), steps) ==> OnGridPair(steps, r)
    {
      StepView(Transform(), model)
    }

    /** The returned `modelToStep` pass-through: it reads the current
        transform on each call, so it agrees with the step view. */
    function ModelToStep(v: real): (s: real)
      reads this
      ensures v == model.min ==> s == Get().min
      ensures v == model.max ==> s == Get().max
      ensures Quantises(Transform(), steps) ==> OnGrid(steps, s)
    {
      Transform().modelToStep(v)
    }

    /** The returned `stepToModel` pass-through: on slider positions it is
        undone by `ModelToStep`. */
    function StepToModel(s: real): (v: real)
      reads this
      ensures RoundTrips(Transform(), steps) && OnGrid(steps, s) ==> ModelToStep(v) == s
    {
      Transform().stepToModel(s)
    }

    /** `useStepModel(model, steps, bounds, linearConfig, options)`. When
        `fixModelOnInit` is set, the init normaliser runs once before the
        object is handed back. */
    constructor (model: Bounds, steps: nat, bounds: Bounds, linearConfig: Option<LinearConfig>,
                 factory: Factory, options: Options)
      ensures this.steps == steps && this.bounds == bounds && this.linearConfig == linearConfig
      ensures this.factory == factory && this.watchBounds == options.watchBounds
      ensures this.beautify == ResolveBeautifier(options.modelBeautifier)
      ensures !options.fixModelOnInit ==> this.model == model && writes == 0
      ensures options.fixModelOnInit ==>
                this.model == Reanchored(Transform(), beautify, model) &&
                writes == (if Normalised(Transform(), beautify, model) then 0 else 1)
    {
      this.model := model;
      this.writes := 0;
      this.steps := steps;
      this.bounds := bounds;
      this.linearConfig := linearConfig;
      this.factory := factory;
      this.beautify := ResolveBeautifier(options.modelBeautifier);
      this.watchBounds := options.watchBounds;
      new;
      if options.fixModelOnInit {
        FixModelOnInit();
      }
    }

    /** The `stepModel` setter: the step pair `b` goes through the write path
        and the result replaces the model in one assignment. Reading right
        after gives `b` back when the step round trip holds and the
        beautifier keeps steps. Only the model changes. */
    method Set(b: Bounds)
      modifies this`model, this`writes
      ensures model == ModelFromSteps(Transform(), beautify, b)
      ensures writes == old(writes) + 1
      ensures Lawful() && OnGridPair(steps, b) ==> Get() == b && Normalised(Transform(), beautify, model)
    {
      var c := Transform();
      model := ModelFromSteps(c, beautify, b);
      writes := writes + 1;
      if RoundTrips(c, steps) && KeepsStep(c, steps, beautify) && OnGridPair(steps, b) {
        ReadAfterWrite(c, steps, beautify, b);
      }
    }

    /** The caller replaces the source bounds. Nothing else changes: the model
        keeps its value, so the step view now shows that value under the new
        transform until the watcher (if any) has run. */
    method SetBounds(newBounds: Bounds)
      modifies this`bounds
      ensures bounds == newBounds
      ensures Get() == StepView(factory(steps, newBounds, linearConfig), old(model))
    {
      bounds := newBounds;
    }

    /** The bounds watcher, registered only when `watchBounds` is set. Vue
        calls it with the current source bounds as the new value, so only the
        previous value is a parameter. On a structural change it re-derives
        the model from the step the old model lands on under the current (new)
        transform and writes it; the step view is kept. Equal bounds, or no
        watcher, leave everything alone. */
    method OnBoundsChange(oldBounds: Bounds)
      modifies this`model, this`writes
      ensures !watchBounds || bounds == oldBounds ==> model == old(model) && writes == old(writes)
      ensures watchBounds && bounds != oldBounds ==>
                model == Reanchored(Transform(), beautify, old(model)) && writes == old(writes) + 1
      ensures Lawful() && OnGridPair(steps, old(Get())) ==> Get() == old(Get())
      ensures watchBounds && bounds != oldBounds && Lawful() && OnGridPair(steps, old(Get())) ==>
                Normalised(Transform(), beautify, model)
    {
      if !watchBounds || bounds == oldBounds {
        return;
      }
      var c := Transform();
      var current := Get();
      model := ModelFromSteps(c, beautify, current);
      writes := writes + 1;
      if RoundTrips(c, steps) && KeepsStep(c, steps, beautify) && OnGridPair(steps, current) {
        ReanchorKeepsStep(c, steps, beautify, old(model));
        ReanchorIdempotent(c, steps, beautify, old(model));
      }
    }

    /** The init normaliser: computes the re-anchored model and writes it only
        if it differs from the current model. Under the round trip and a
        step-keeping beautifier its result is normalised, so running it again
        writes nothing. */
    method FixModelOnInit()
      modifies this`model, this`writes
      ensures model == Reanchored(Transform(), beautify, old(model))
      ensures writes == if Normalised(Transform(), beautify, old(model)) then old(writes) else old(writes) + 1
      ensures Lawful() && OnGridPair(steps, old(Get())) ==>
                Get() == old(Get()) && Normalised(Transform(), beautify, model)
    {
      var c := Transform();
      var candidate := ModelFromSteps(c, beautify, Get());
      if candidate != model {
        model := candidate;
        writes := writes + 1;
      }
      if RoundTrips(c, steps) && KeepsStep(c, steps, beautify) && OnGridPair(steps, StepView(c, old(model))) {
        ReanchorKeepsStep(c, steps, beautify, old(model));
        ReanchorIdempotent(c, steps, beautify, old(model));
      }
    }
  }

  /** Construction with the default options, then a write through the step
      view: construction leaves the model untouched and writes nothing, the
      write stores `stepToModel` of each field, and the read that follows
      gives the written pair back. */
  method WriteThenRead(model: Bounds, steps: nat, bounds: Bounds, linearConfig: Option<LinearConfig>,
                       factory: Factory, b: Bounds)
    returns (before: Bounds, stored: Bounds, read: Bounds)
    requires RoundTrips(factory(steps, bounds, linearConfig), steps)
    requires OnGridPair(steps, b)
    ensures var c := factory(steps, bounds, linearConfig);
            before == StepView(c, model) &&
            stored == Bounds(c.stepToModel(b.min), c.stepToModel(b.max)) &&
            read == b
  {
    var sm := new StepModel(model, steps, bounds, linearConfig, factory, DefaultOptions);
    before := sm.Get();
    sm.Set(b);
    IdentityKeepsStep(sm.Transform(), steps);
    stored := sm.model;
    read := sm.Get();
  }

  /** Construction with the init normaliser and the watcher on, then a change
      of the source bounds and the watcher run. The init fix leaves a
      normalised model when the laws hold for the first bounds; the watcher
      then keeps the step the fixed model lands on under the new bounds and
      leaves a model normalised for them. */
  method FixThenWatch(model: Bounds, steps: nat, bounds: Bounds, newBounds: Bounds,
                      linearConfig: Option<LinearConfig>, factory: Factory, custom: Option<Beautifier>)
    returns (fixed: Bounds, settled: Bounds)
    requires RoundTrips(factory(steps, newBounds, linearConfig), steps)
    requires Quantises(factory(steps, newBounds, linearConfig), steps)
    requires KeepsStep(factory(steps, newBounds, linearConfig), steps, ResolveBeautifier(custom))
    requires newBounds != bounds
    ensures var beautify := ResolveBeautifier(custom);
            var c0 := factory(steps, bounds, linearConfig);
            fixed == Reanchored(c0, beautify, model) &&
            (RoundTrips(c0, steps) && Quantises(c0, steps) && KeepsStep(c0, steps, beautify) ==>
               Normalised(c0, beautify, fixed))
    ensures var beautify := ResolveBeautifier(custom);
            var c := factory(steps, newBounds, linearConfig);
            settled == Reanchored(c, beautify, fixed) &&
            StepView(c, settled) == StepView(c, fixed) && Normalised(c, beautify, settled)
  {
    var sm := new StepModel(model, steps, bounds, linearConfig, factory, Options(true, true, custom));
    fixed := sm.model;
    var c0 := sm.Transform();
    if RoundTrips(c0, steps) && Quantises(c0, steps) && KeepsStep(c0, steps, sm.beautify) {
      ReanchorIdempotent(c0, steps, sm.beautify, model);
    }
    sm.SetBounds(newBounds);
    sm.OnBoundsChange(bounds);
    settled := sm.model;
  }
}
