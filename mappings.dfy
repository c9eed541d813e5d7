/** Mappings that translate MIDI signals into control mutations
    (src/mappings.ts). These constructors only remember their control; they
    do not add themselves to the control's `mappings` list. */
module Mappings {
  import opened JsValues
  import opened Specs
  import opened Midi
  import opened Controls

  /** `v / 127`: a 7-bit MIDI data value as a fraction of its full range. */
  function Unit(v: nat): real {
    v as real / 127.0
  }

  /** A MIDI data value lands in [0, 1] exactly when it fits in 7 bits;
      0 gives 0 and 127 gives 1. */
  lemma UnitRange(v: nat)
    ensures 0.0 <= Unit(v)
    ensures Unit(v) <= 1.0 <==> v <= 127
    ensures Unit(0) == 0.0 && Unit(127) == 1.0
  {
  }

  /** The fader value a Control Change with data `v` produces: `min` for 0,
      `max` for 127, and within [min, max] for every 7-bit value. */
  lemma CcTargetRange(spec: FaderSpec, v: nat)
    requires spec.min < spec.max
    ensures spec.Denormalize(Unit(0)) == spec.min
    ensures spec.Denormalize(Unit(127)) == spec.max
    ensures v <= 127 <==> spec.min <= spec.Denormalize(Unit(v)) <= spec.max
  {
    UnitRange(v);
    DenormalizeRange(spec, Unit(v));
  }

  class CCToFaderMapping {
    const control: Fader

    constructor (control: Fader)
      ensures this.control == control
    {
      this.control := control;
    }

    /** Only a Control Change moves the fader, to `value / 127` of its range. */
    method HandleSignal(signal: Signal)
      modifies control, control.base
      ensures signal.ControlChange? ==>
        && control.value == control.spec.Denormalize(Unit(signal.value))
        && control.base.updates == old(control.base.updates) + [Number(control.value)]
      ensures !signal.ControlChange? ==>
        control.value == old(control.value) && control.base.updates == old(control.base.updates)
      ensures control.base.mappings == old(control.base.mappings)
    {
      if signal.ControlChange? {
        control.SetNormValue(Unit(signal.value));
      }
    }
  }

  class KeyToPadMapping {
    const control: Pad

    constructor (control: Pad)
      ensures this.control == control
    {
      this.control := control;
    }

    /** Note On presses with `velocity / 127`, Note Off releases, and a
        Control Change is ignored. */
    method HandleSignal(signal: Signal)
      modifies control, control.base
      ensures signal.NoteOn? ==>
        control.pressed && control.base.updates == old(control.base.updates) + [PressWithVelocity(Unit(signal.velocity))]
      ensures signal.NoteOff? ==>
        !control.pressed && control.base.updates == old(control.base.updates) + [Payload.Release]
      ensures signal.ControlChange? ==>
        control.pressed == old(control.pressed) && control.base.updates == old(control.base.updates)
      ensures control.base.mappings == old(control.base.mappings)
    {
      if signal.NoteOn? {
        control.Press(Unit(signal.velocity));
      } else if signal.NoteOff? {
        control.Release();
      }
    }
  }
}
