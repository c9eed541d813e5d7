/** The control descriptors supplied from outside at construction time.
    They are immutable records; only the fields the controller reads are
    kept: the grid position `x`, `y` and the type-specific bounds. */
module Specs {
  import opened JsValues

  datatype FaderSpec = FaderSpec(x: int, y: int, min: real, max: real, initialValue: real)
  {
    /** The value `setNormValue(n)` stores: `n` mapped linearly onto [min, max]. */
    function Denormalize(n: real): real {
      n * (max - min) + min
    }

    /** What `getNormValue()` computes for a stored value `v`. */
    function Normalize(v: real): Quotient {
      Divide(v - min, max - min)
    }
  }

  datatype PadSpec = PadSpec(x: int, y: int)
  datatype SwitchSpec = SwitchSpec(x: int, y: int, initiallyOn: bool)
  datatype SelectorSpec = SelectorSpec(x: int, y: int, options: seq<string>, initialIndex: int)
  datatype ConfirmButtonSpec = ConfirmButtonSpec(x: int, y: int)
  datatype ConfirmSwitchSpec = ConfirmSwitchSpec(x: int, y: int, initiallyOn: bool)
  datatype LabelSpec = LabelSpec(x: int, y: int)
  datatype CakeSpec = CakeSpec(x: int, y: int, initialValue: real)
  datatype GroupSpec = GroupSpec(x: int, y: int)
  datatype TabbedPagesSpec = TabbedPagesSpec(x: int, y: int)

  /** Normalised 0 lands on `min` and normalised 1 on `max`. */
  lemma DenormalizeEndpoints(spec: FaderSpec)
    ensures spec.Denormalize(0.0) == spec.min
    ensures spec.Denormalize(1.0) == spec.max
  {
  }

  /** The normalised value stored with `setNormValue` is read back by
      `getNormValue`, whenever the range is not empty. */
  lemma NormalizeDenormalize(spec: FaderSpec, n: real)
    requires spec.max != spec.min
    ensures spec.Normalize(spec.Denormalize(n)) == Finite(n)
  {
    var w := spec.max - spec.min;
    assert spec.Denormalize(n) - spec.min == n * w;
    assert (n * w) / w == n;
  }

  /** Conversely, a stored value is recovered from its normalised form. */
  lemma DenormalizeNormalize(spec: FaderSpec, v: real)
    requires spec.max != spec.min
    ensures spec.Normalize(v).Finite?
    ensures spec.Denormalize(spec.Normalize(v).value) == v
  {
  }

  /** With an empty range, `getNormValue` divides by zero. */
  lemma NormalizeEmptyRange(spec: FaderSpec, v: real)
    requires spec.max == spec.min
    ensures spec.Normalize(v) == ByZero
  {
  }

  lemma ProductSign(a: real, b: real)
    requires b > 0.0
    ensures a < 0.0 <==> a * b < 0.0
    ensures a > 0.0 <==> a * b > 0.0
  {
  }

  /** Normalised values in [0, 1] land inside [min, max]; nothing is clamped,
      so values outside [0, 1] land outside (shown for `max > min`). */
  lemma {:induction false} DenormalizeRange(spec: FaderSpec, n: real)
    requires spec.min < spec.max
    ensures 0.0 <= n <= 1.0 <==> spec.min <= spec.Denormalize(n) <= spec.max
  {
    var w := spec.max - spec.min;
    assert spec.Denormalize(n) - spec.min == n * w;
    assert spec.Denormalize(n) - spec.max == (n - 1.0) * w;
    ProductSign(n, w);
    ProductSign(n - 1.0, w);
  }
}
