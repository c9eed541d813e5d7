/** The older copy of the control classes kept beside the stores
    (src/stores/controls.ts): a base class whose mapping list can also lose a
    single mapping or be handed back while being emptied, a Fader and a Pad
    that also report being touched, and the store holding the current set of
    controls. */
module StoreControls {
  import opened JsValues
  import opened Specs

  /** What `onTouch(this)` can read off the control it is handed: a fader's
      value or a pad's pressed state at the moment of the call. */
  datatype Seen = FaderAt(value: real) | PadAt(pressed: bool)

  /** A callback invocation: `onTouch(this)` or `onUpdate(payload)`. */
  datatype Event = Touched(seen: Seen) | Updated(payload: Payload)

  /** `s.filter(x => x !== m)`: `s` without any occurrence of `m`. */
  function Without<T(==)>(s: seq<T>, m: T): (r: seq<T>)
    ensures m !in r
  {
    if s == [] then [] else (if s[0] == m then [] else [s[0]]) + Without(s[1..], m)
  }

  /** Filtering drops every copy of `m` and keeps every other element as
      often as it occurred. */
  lemma {:induction false} WithoutCounts<T>(s: seq<T>, m: T)
    ensures multiset(Without(s, m)) == multiset(s)[m := 0]
  {
    if s != [] {
      WithoutCounts(s[1..], m);
      assert s == [s[0]] + s[1..];
    }
  }

  /** Filtering keeps the relative order of what stays: it distributes over
      concatenation. */
  lemma {:induction false} WithoutAppend<T>(a: seq<T>, b: seq<T>, m: T)
    ensures Without(a + b, m) == Without(a, m) + Without(b, m)
  {
    if a != [] {
      assert (a + b)[1..] == a[1..] + b;
      WithoutAppend(a[1..], b, m);
    } else {
      assert a + b == b;
    }
  }

  /** A list that does not hold `m` is left exactly as it was. */
  lemma {:induction false} WithoutAbsent<T>(s: seq<T>, m: T)
    requires m !in s
    ensures Without(s, m) == s
  {
    if s != [] {
      WithoutAbsent(s[1..], m);
    }
  }

  /** The fields of the abstract base class of this copy. */
  class Control {
    /** References to the mapping objects bound to this control. */
    var mappings: seq<object>
    /** Every `onTouch` and `onUpdate` call, oldest first. */
    var events: seq<Event>

    constructor ()
      ensures mappings == [] && events == []
    {
      mappings := [];
      events := [];
    }

    method AddMapping(m: object)
      modifies this
      ensures mappings == old(mappings) + [m]
      ensures events == old(events)
    {
      mappings := mappings + [m];
    }

    method RemoveMapping(m: object)
      modifies this
      ensures mappings == Without(old(mappings), m)
      ensures events == old(events)
    {
      mappings := Without(mappings, m);
    }

    /** Empties the list and hands back what it held. */
    method RemoveMappingsAndList() returns (removed: seq<object>)
      modifies this
      ensures removed == old(mappings) && mappings == []
      ensures events == old(events)
    {
      removed := mappings;
      mappings := [];
    }

    method Emit(e: Event)
      modifies this
      ensures events == old(events) + [e]
      ensures mappings == old(mappings)
    {
      events := events + [e];
    }
  }

  class Fader {
    const base: Control
    const spec: FaderSpec
    var value: real

    constructor (spec: FaderSpec)
      ensures this.spec == spec && value == spec.initialValue
      ensures fresh(base) && base.mappings == [] && base.events == []
    {
      this.spec := spec;
      value := spec.initialValue;
      base := new Control();
    }

    /** Reports the touch while the old value is still stored, stores `v`
        unclamped, then reports the value. */
    method SetValue(v: real)
      modifies this, base
      ensures value == v
      ensures base.events == old(base.events) + [Touched(FaderAt(old(value))), Updated(Number(v))]
      ensures base.mappings == old(base.mappings)
    {
      base.Emit(Touched(FaderAt(value)));
      value := v;
      base.Emit(Updated(Number(v)));
    }

    method SetNormValue(n: real)
      modifies this, base
      ensures value == spec.Denormalize(n)
      ensures base.events == old(base.events) + [Touched(FaderAt(old(value))), Updated(Number(value))]
      ensures base.mappings == old(base.mappings)
    {
      SetValue(n * (spec.max - spec.min) + spec.min);
    }
  }

  class Pad {
    const base: Control
    const spec: PadSpec
    var pressed: bool

    constructor (spec: PadSpec)
      ensures this.spec == spec && !pressed
      ensures fresh(base) && base.mappings == [] && base.events == []
    {
      this.spec := spec;
      pressed := false;
      base := new Control();
    }

    /** Reports the touch while the old pressed state is still stored, sets
        it, then reports `{press: true, value: v}`. */
    method Press(v: real)
      modifies this, base
      ensures pressed
      ensures base.events == old(base.events) + [Touched(PadAt(old(pressed))), Updated(PressWithValue(v))]
      ensures base.mappings == old(base.mappings)
    {
      base.Emit(Touched(PadAt(pressed)));
      pressed := true;
      base.Emit(Updated(PressWithValue(v)));
    }

    /** Reports `{press: false}` and no touch. */
    method Release()
      modifies this, base
      ensures !pressed
      ensures base.events == old(base.events) + [Updated(Payload.Release)]
      ensures base.mappings == old(base.mappings)
    {
      pressed := false;
      base.Emit(Updated(Payload.Release));
    }
  }

  datatype AnyControl = FaderC(fader: Fader) | PadC(pad: Pad)

  /** The `controls` store. */
  class ControlsStore {
    var controls: seq<AnyControl>

    constructor ()
      ensures controls == []
    {
      controls := [];
    }

    /** Replaces the whole list; the controls themselves are not touched. */
    method SetControls(controllerSet: seq<AnyControl>)
      modifies this
      ensures controls == controllerSet
    {
      controls := controllerSet;
    }
  }
}
