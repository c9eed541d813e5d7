/** Display-only meters (src/meters.ts): a Cake shows the last number it was
    sent. */
module Meters {
  import opened JsValues
  import opened Specs

  class Cake {
    const spec: CakeSpec
    var value: real

    constructor (spec: CakeSpec)
      ensures this.spec == spec && value == spec.initialValue
    {
      this.spec := spec;
      value := spec.initialValue;
    }

    /** Takes the payload if it is a number; anything else is ignored. */
    method Update(payload: Payload)
      modifies this
      ensures value == NumberOr(old(value), payload)
    {
      if payload.Number? {
        value := payload.n;
      }
    }
  }

  /** Sending the same payload twice leaves the meter as sending it once. */
  method UpdateTwice(c: Cake, payload: Payload)
    modifies c
    ensures c.value == NumberOr(old(c.value), payload)
  {
    c.Update(payload);
    c.Update(payload);
    NumberOrIdempotent(old(c.value), payload);
  }
}
