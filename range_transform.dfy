/**
 * The interface of the external range-transform package that turns model
 * values (domain units) into slider step positions and back.
 *
 * The curve itself (a blend of a linear and an exponential segment, computed
 * in floating point) is not modelled: a transform is any pair of conversion
 * functions. What the synchronisation layer relies on is stated as
 * predicates over a transform, and every lemma that needs one of them takes
 * it as a hypothesis.
 */
module RangeTransform {

  /** A `{min, max}` pair. The same shape carries model values (domain
      units) and step positions (slider ticks), as `Bounds` does in `useStepModel`. */
  datatype Bounds = Bounds(min: real, max: real)

  /** Parameters of the linear segment of the curve. The synchronisation
      layer never reads them; it only passes them to the factory. */
  datatype LinearConfig = LinearConfig(maxLinear: real, linearPercent: real)

  datatype Option<+T> = None | Some(value: T)

  /** A transform instance: the two conversions the factory resolves for
      one step count, one pair of source bounds and one linear config. */
  datatype Calculator = Calculator(modelToStep: real -> real, stepToModel: real -> real)

  /** `useExponentialSlider(steps, bounds, linearConfig)`: a pure function
      of its three inputs, so equal inputs give the same transform. */
  type Factory = (nat, Bounds, Option<LinearConfig>) -> Calculator

  /** `x` is one of the `steps + 1` integer slider positions `0 .. steps`. */
  predicate OnGrid(steps: nat, x: real) {
    0.0 <= x <= steps as real && x.Floor as real == x
  }

  /** Both fields of `b` are slider positions. */
  predicate OnGridPair(steps: nat, b: Bounds) {
    OnGrid(steps, b.min) && OnGrid(steps, b.max)
  }

  /** The step-domain round trip is exact: converting a slider position to a
      model value and back gives the same position. The package's own test
      loop checks this for every position. */
  ghost predicate RoundTrips(c: Calculator, steps: nat) {
    forall s :: OnGrid(steps, s) ==> c.modelToStep(c.stepToModel(s)) == s
  }

  /** `modelToStep` always lands on a slider position: it rounds to an
      integer and clamps to `[0, steps]`. */
  ghost predicate Quantises(c: Calculator, steps: nat) {
    forall v :: OnGrid(steps, c.modelToStep(v))
  }
}
