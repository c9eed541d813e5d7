/** The on-screen controls (src/controls.ts).

    The abstract base class `Control` of the source holds what every control
    shares: the list of mappings bound to it and the `onUpdate` callback. Here
    that part is an object of class `Control`, held by every variant in its
    `base` field, and the callback is an append-only log of the payloads it was
    called with. `AnyControl` is the closed set of variants, used wherever the
    source calls a control without knowing its class. */
module Controls {
  import opened JsValues
  import opened Specs

  /** The fields of the abstract base class. */
  class Control {
    /** References to the mapping objects bound to this control. */
    var mappings: seq<object>
    /** Every `onUpdate(payload)` call, oldest first. */
    var updates: seq<Payload>

    constructor ()
      ensures mappings == [] && updates == []
    {
      mappings := [];
      updates := [];
    }

    method AddMapping(m: object)
      modifies this
      ensures mappings == old(mappings) + [m]
      ensures updates == old(updates)
    {
      mappings := mappings + [m];
    }

    method RemoveMappings()
      modifies this
      ensures mappings == []
      ensures updates == old(updates)
    {
      mappings := [];
    }

    /** Calls `onUpdate(p)`. */
    method Emit(p: Payload)
      modifies this
      ensures updates == old(updates) + [p]
      ensures mappings == old(mappings)
    {
      updates := updates + [p];
    }
  }

  /** `tabIndex()`: the focus order of the control at grid cell (x, y). */
  function TabIndexAt(x: int, y: int): int {
    777 + x * 101 + y
  }

  /** On a grid less than 101 rows high, tab order is column by column, top to
      bottom within a column, and no two cells share an index. */
  lemma TabIndexOrder(x1: int, y1: int, x2: int, y2: int)
    requires 0 <= y1 < 101 && 0 <= y2 < 101
    ensures TabIndexAt(x1, y1) < TabIndexAt(x2, y2) <==> x1 < x2 || (x1 == x2 && y1 < y2)
    ensures TabIndexAt(x1, y1) == TabIndexAt(x2, y2) <==> x1 == x2 && y1 == y2
  {
    if x1 < x2 {
      assert (x2 - x1) * 101 >= 101;
    } else if x2 < x1 {
      assert (x1 - x2) * 101 >= 101;
    }
  }

  class Fader {
    const base: Control
    const spec: FaderSpec
    var value: real

    constructor (spec: FaderSpec)
      ensures this.spec == spec && value == spec.initialValue
      ensures fresh(base) && base.mappings == [] && base.updates == []
    {
      this.spec := spec;
      value := spec.initialValue;
      base := new Control();
    }

    /** Stores `v` as it is (no clamping) and reports it once. */
    method SetValue(v: real)
      modifies this, base
      ensures value == v
      ensures base.updates == old(base.updates) + [Number(v)]
      ensures base.mappings == old(base.mappings)
    {
      value := v;
      base.Emit(Number(v));
    }

    method SetNormValue(n: real)
      modifies this, base
      ensures value == spec.Denormalize(n)
      ensures base.updates == old(base.updates) + [Number(value)]
      ensures base.mappings == old(base.mappings)
    {
      SetValue(n * (spec.max - spec.min) + spec.min);
    }

    /** The stored value as a fraction of the range: defined exactly when
        the range is not empty, and then it denormalises back to the value. */
    function GetNormValue(): (q: Quotient)
      reads this
      ensures q.Finite? <==> spec.max != spec.min
      ensures q.Finite? ==> spec.Denormalize(q.value) == value
    {
      spec.Normalize(value)
    }
  }

  class Pad {
    const base: Control
    const spec: PadSpec
    var pressed: bool

    constructor (spec: PadSpec)
      ensures this.spec == spec && !pressed
      ensures fresh(base) && base.mappings == [] && base.updates == []
    {
      this.spec := spec;
      pressed := false;
      base := new Control();
    }

    method Press(v: real)
      modifies this, base
      ensures pressed
      ensures base.updates == old(base.updates) + [PressWithVelocity(v)]
      ensures base.mappings == old(base.mappings)
    {
      pressed := true;
      base.Emit(PressWithVelocity(v));
    }

    method Release()
      modifies this, base
      ensures !pressed
      ensures base.updates == old(base.updates) + [Payload.Release]
      ensures base.mappings == old(base.mappings)
    {
      pressed := false;
      base.Emit(Payload.Release);
    }
  }

  class Switch {
    const base: Control
    const spec: SwitchSpec
    var on: bool

    constructor (spec: SwitchSpec)
      ensures this.spec == spec && on == spec.initiallyOn
      ensures fresh(base) && base.mappings == [] && base.updates == []
    {
      this.spec := spec;
      on := spec.initiallyOn;
      base := new Control();
    }

    method Toggle()
      modifies this, base
      ensures on == !old(on)
      ensures base.updates == old(base.updates) + [Boolean(on)]
      ensures base.mappings == old(base.mappings)
    {
      on := !on;
      base.Emit(Boolean(on));
    }
  }

  /** Toggling a switch twice restores it, after reporting both new states. */
  method ToggleTwice(s: Switch)
    modifies s, s.base
    ensures s.on == old(s.on)
    ensures s.base.updates == old(s.base.updates) + [Boolean(!s.on), Boolean(s.on)]
  {
    s.Toggle();
    s.Toggle();
  }

  /** `(index + 1) % options.length` with JavaScript's truncating `%`. */
  function NextIndex(i: int, n: int): int
    requires n > 0
  {
    TruncRem(i + 1, n)
  }

  /** `(index - 1 + options.length) % options.length`. */
  function PrevIndex(i: int, n: int): int
    requires n > 0
  {
    TruncRem(i - 1 + n, n)
  }

  /** From a valid index, stepping either way stays valid and wraps around
      at both ends; the two steps undo each other. */
  lemma SelectorSteps(i: int, n: int)
    requires 0 <= i < n
    ensures 0 <= NextIndex(i, n) < n && 0 <= PrevIndex(i, n) < n
    ensures NextIndex(i, n) == (if i == n - 1 then 0 else i + 1)
    ensures PrevIndex(i, n) == (if i == 0 then n - 1 else i - 1)
    ensures PrevIndex(NextIndex(i, n), n) == i
    ensures NextIndex(PrevIndex(i, n), n) == i
  {
    if i < n - 1 {
      ModOfSmall(i + 1, n);
    } else {
      ModOfSmall(0, n);
      assert i + 1 == n + 0;
      ModOfShifted(i + 1, n);
    }
    if i > 0 {
      assert i - 1 + n >= n;
      ModOfShifted(i - 1 + n, n);
    } else {
      ModOfSmall(n - 1, n);
    }
    var j := NextIndex(i, n);
    if j > 0 {
      ModOfShifted(j - 1 + n, n);
    } else {
      ModOfSmall(n - 1, n);
    }
    var k := PrevIndex(i, n);
    if k < n - 1 {
      ModOfSmall(k + 1, n);
    } else {
      ModOfShifted(k + 1, n);
    }
  }

  lemma ModOfSmall(a: int, n: int)
    requires 0 <= a < n
    ensures a % n == a
  {
  }

  lemma ModOfShifted(a: int, n: int)
    requires 0 < n <= a < 2 * n
    ensures a % n == a - n
  {
    assert a == 1 * n + (a - n);
  }

  /** The selector's `index`: an integer, or NaN once it has been stepped
      with no options to step through (`x % 0`). */
  datatype Index = At(i: int) | NaN

  class Selector {
    const base: Control
    const spec: SelectorSpec
    var index: Index

    constructor (spec: SelectorSpec)
      ensures this.spec == spec && index == At(spec.initialIndex)
      ensures fresh(base) && base.mappings == [] && base.updates == []
    {
      this.spec := spec;
      index := At(spec.initialIndex);
      base := new Control();
    }

    method Select(i: int)
      modifies this, base
      ensures index == At(i)
      ensures base.updates == old(base.updates) + [Number(i as real)]
      ensures base.mappings == old(base.mappings)
    {
      index := At(i);
      base.Emit(Number(i as real));
    }

    /** Moves to the next option without reporting it. */
    method Increment()
      modifies this
      ensures index == if old(index).At? && |spec.options| > 0
                       then At(NextIndex(old(index).i, |spec.options|)) else NaN
    {
      if index.At? && |spec.options| > 0 {
        index := At(TruncRem(index.i + 1, |spec.options|));
      } else {
        index := NaN;
      }
    }

    /** Moves to the previous option without reporting it. */
    method Decrement()
      modifies this
      ensures index == if old(index).At? && |spec.options| > 0
                       then At(PrevIndex(old(index).i, |spec.options|)) else NaN
    {
      if index.At? && |spec.options| > 0 {
        index := At(TruncRem(index.i - 1 + |spec.options|, |spec.options|));
      } else {
        index := NaN;
      }
    }
  }

  // ----- the arm/confirm protocol of ConfirmButton and ConfirmSwitch -----

  /** `awaitingConfirmation`, and whether a disarm timer is scheduled that has
      neither fired nor been cleared. */
  datatype Arming = Arming(awaiting: bool, timerPending: bool)

  const Idle := Arming(false, false)

  /** What happens to a confirm control: a press, the disarm timer firing, or
      `cancel()`. */
  datatype Input = Press | TimerFires | Cancel

  /** A state together with the payloads passed to `onUpdate` on the way. */
  datatype ButtonRun = ButtonRun(state: Arming, emitted: seq<Payload>)

  function ButtonStep(a: Arming, input: Input): ButtonRun {
    match input
    case Press =>
      // the pending timer, if any, is cleared first
      if a.awaiting then ButtonRun(Arming(false, false), [Boolean(true)])
      else ButtonRun(Arming(true, true), [Boolean(false)])
    case TimerFires =>
      if a.timerPending then ButtonRun(Arming(false, false), []) else ButtonRun(a, [])
    case Cancel =>
      ButtonRun(a.(awaiting := false), [])
  }

  /** The effect of a sequence of inputs on a ConfirmButton. */
  function RunButton(a: Arming, inputs: seq<Input>): ButtonRun {
    if inputs == [] then ButtonRun(a, [])
    else
      var before := RunButton(a, inputs[..|inputs| - 1]);
      var last := ButtonStep(before.state, inputs[|inputs| - 1]);
      ButtonRun(last.state, before.emitted + last.emitted)
  }

  /** An armed button has its disarm timer pending; it was armed by the last
      report, `false`; and every `true` is directly preceded by a `false`. */
  ghost predicate ButtonHistory(r: ButtonRun) {
    && (r.state.awaiting ==> r.state.timerPending)
    && (r.state.awaiting ==> |r.emitted| > 0 && r.emitted[|r.emitted| - 1] == Boolean(false))
    && (forall i :: 0 <= i < |r.emitted| ==> r.emitted[i] in {Boolean(true), Boolean(false)})
    && (forall i :: 0 <= i < |r.emitted| && r.emitted[i] == Boolean(true) ==>
          i > 0 && r.emitted[i - 1] == Boolean(false))
  }

  /** Whatever happens to a ConfirmButton from idle, it reports only booleans,
      and it confirms (`true`) only right after being armed (`false`). */
  lemma {:induction false} ButtonConfirmsOnlyWhenArmed(inputs: seq<Input>)
    ensures ButtonHistory(RunButton(Idle, inputs))
  {
    if inputs != [] {
      ButtonConfirmsOnlyWhenArmed(inputs[..|inputs| - 1]);
    }
  }

  /** Two presses within the timeout: armed, then confirmed exactly once. */
  lemma ButtonPressPress()
    ensures RunButton(Idle, [Press, Press]) == ButtonRun(Idle, [Boolean(false), Boolean(true)])
  {
  }

  /** Press, timeout, press: armed twice and never confirmed; one timer left. */
  lemma ButtonPressTimeoutPress()
    ensures RunButton(Idle, [Press, TimerFires, Press]) ==
            ButtonRun(Arming(true, true), [Boolean(false), Boolean(false)])
  {
    var inputs := [Press, TimerFires, Press];
    assert inputs[..2][..1] == [Press];
    assert RunButton(Idle, [Press]) == ButtonRun(Arming(true, true), [Boolean(false)]);
    assert RunButton(Idle, inputs[..2]) == ButtonRun(Idle, [Boolean(false)]);
  }

  class ConfirmButton {
    const base: Control
    const spec: ConfirmButtonSpec
    var awaitingConfirmation: bool
    var timerPending: bool

    function State(): Arming
      reads this
    {
      Arming(awaitingConfirmation, timerPending)
    }

    constructor (spec: ConfirmButtonSpec)
      ensures this.spec == spec && State() == Idle
      ensures fresh(base) && base.mappings == [] && base.updates == []
    {
      this.spec := spec;
      awaitingConfirmation := false;
      timerPending := false;
      base := new Control();
    }

    method Press()
      modifies this, base
      ensures State() == ButtonStep(old(State()), Input.Press).state
      ensures base.updates == old(base.updates) + ButtonStep(old(State()), Input.Press).emitted
      ensures base.mappings == old(base.mappings)
    {
      if timerPending {
        timerPending := false;  // clearTimeout
      }
      if awaitingConfirmation {
        base.Emit(Boolean(true));
        awaitingConfirmation := false;
      } else {
        awaitingConfirmation := true;
        base.Emit(Boolean(false));
        timerPending := true;   // setTimeout(disarm, 4000)
      }
    }

    /** The disarm timer runs out: the button silently stops waiting. */
    method FireTimer()
      modifies this
      ensures State() == ButtonStep(old(State()), TimerFires).state
    {
      if timerPending {
        timerPending := false;
        awaitingConfirmation := false;
      }
    }

    method Cancel()
      modifies this
      ensures State() == ButtonStep(old(State()), Input.Cancel).state
    {
      awaitingConfirmation := false;
    }
  }

  datatype SwitchRun = SwitchRun(state: Arming, on: bool, emitted: seq<Payload>)

  function SwitchStep(a: Arming, on: bool, input: Input): SwitchRun {
    match input
    case Press =>
      if a.awaiting then SwitchRun(Arming(false, false), !on, [Boolean(!on)])
      else SwitchRun(Arming(true, true), on, [])
    case TimerFires =>
      if a.timerPending then SwitchRun(Arming(false, false), on, []) else SwitchRun(a, on, [])
    case Cancel =>
      SwitchRun(a.(awaiting := false), on, [])
  }

  /** The effect of a sequence of inputs on a ConfirmSwitch. */
  function RunSwitch(a: Arming, on: bool, inputs: seq<Input>): SwitchRun {
    if inputs == [] then SwitchRun(a, on, [])
    else
      var before := RunSwitch(a, on, inputs[..|inputs| - 1]);
      var last := SwitchStep(before.state, before.on, inputs[|inputs| - 1]);
      SwitchRun(last.state, last.on, before.emitted + last.emitted)
  }

  /** Whatever happens to a ConfirmSwitch, `on` changes only by confirmed
      presses, each of which reports the new value: the reports alternate,
      starting from the negation of the initial value, and the switch ends on
      the last one reported. */
  lemma {:induction false} SwitchFlipsOnlyWhenConfirmed(a: Arming, on0: bool, inputs: seq<Input>)
    ensures var r := RunSwitch(a, on0, inputs);
      && r.on == (if |r.emitted| % 2 == 0 then on0 else !on0)
      && forall i :: 0 <= i < |r.emitted| ==>
           r.emitted[i] == Boolean(if i % 2 == 0 then !on0 else on0)
  {
    if inputs != [] {
      SwitchFlipsOnlyWhenConfirmed(a, on0, inputs[..|inputs| - 1]);
    }
  }

  /** Press, then press again within the timeout: one toggle, reported once. */
  lemma SwitchPressPress(on: bool)
    ensures RunSwitch(Idle, on, [Press, Press]) == SwitchRun(Idle, !on, [Boolean(!on)])
  {
  }

  class ConfirmSwitch {
    const base: Control
    const spec: ConfirmSwitchSpec
    var awaitingConfirmation: bool
    var timerPending: bool
    var on: bool

    function State(): Arming
      reads this
    {
      Arming(awaitingConfirmation, timerPending)
    }

    constructor (spec: ConfirmSwitchSpec)
      ensures this.spec == spec && State() == Idle && on == spec.initiallyOn
      ensures fresh(base) && base.mappings == [] && base.updates == []
    {
      this.spec := spec;
      awaitingConfirmation := false;
      timerPending := false;
      on := spec.initiallyOn;
      base := new Control();
    }

    method Press()
      modifies this, base
      ensures var step := SwitchStep(old(State()), old(on), Input.Press);
        State() == step.state && on == step.on &&
        base.updates == old(base.updates) + step.emitted
      ensures base.mappings == old(base.mappings)
    {
      if timerPending {
        timerPending := false;  // clearTimeout
      }
      if awaitingConfirmation {
        awaitingConfirmation := false;
        on := !on;
        base.Emit(Boolean(on));
      } else {
        awaitingConfirmation := true;
        timerPending := true;   // setTimeout(disarm, 4000)
      }
    }

    /** The disarm timer runs out: the switch silently stops waiting. */
    method FireTimer()
      modifies this
      ensures var step := SwitchStep(old(State()), old(on), TimerFires);
        State() == step.state && on == step.on
    {
      if timerPending {
        timerPending := false;
        awaitingConfirmation := false;
      }
    }

    method Cancel()
      modifies this
      ensures var step := SwitchStep(old(State()), old(on), Input.Cancel);
        State() == step.state && on == step.on
    {
      awaitingConfirmation := false;
    }
  }

  class Label {
    const base: Control
    const spec: LabelSpec

    constructor (spec: LabelSpec)
      ensures this.spec == spec
      ensures fresh(base) && base.mappings == [] && base.updates == []
    {
      this.spec := spec;
      base := new Control();
    }
  }

  /** A display-only meter driven from outside through `update`. */
  class Cake {
    const base: Control
    const spec: CakeSpec
    var value: real

    constructor (spec: CakeSpec)
      ensures this.spec == spec && value == spec.initialValue
      ensures fresh(base) && base.mappings == [] && base.updates == []
    {
      this.spec := spec;
      value := spec.initialValue;
      base := new Control();
    }

    /** Takes the payload if it is a number; anything else is ignored. */
    method Update(p: Payload)
      modifies this
      ensures value == NumberOr(old(value), p)
    {
      if p.Number? {
        value := p.n;
      }
    }
  }

  // ----- composites and path routing -----

  datatype AnyControl =
    | FaderC(fader: Fader)
    | PadC(pad: Pad)
    | SwitchC(switch: Switch)
    | SelectorC(selector: Selector)
    | ConfirmButtonC(confirmButton: ConfirmButton)
    | ConfirmSwitchC(confirmSwitch: ConfirmSwitch)
    | LabelC(labelControl: Label)
    | CakeC(cake: Cake)
    | GroupC(group: Group)
    | TabbedPagesC(tabbedPages: TabbedPages)
  {
    function Base(): Control {
      match this
      case FaderC(c) => c.base
      case PadC(c) => c.base
      case SwitchC(c) => c.base
      case SelectorC(c) => c.base
      case ConfirmButtonC(c) => c.base
      case ConfirmSwitchC(c) => c.base
      case LabelC(c) => c.base
      case CakeC(c) => c.base
      case GroupC(c) => c.base
      case TabbedPagesC(c) => c.base
    }

    /** The grid cell of the control's spec. */
    function Cell(): (int, int) {
      match this
      case FaderC(c) => (c.spec.x, c.spec.y)
      case PadC(c) => (c.spec.x, c.spec.y)
      case SwitchC(c) => (c.spec.x, c.spec.y)
      case SelectorC(c) => (c.spec.x, c.spec.y)
      case ConfirmButtonC(c) => (c.spec.x, c.spec.y)
      case ConfirmSwitchC(c) => (c.spec.x, c.spec.y)
      case LabelC(c) => (c.spec.x, c.spec.y)
      case CakeC(c) => (c.spec.x, c.spec.y)
      case GroupC(c) => (c.spec.x, c.spec.y)
      case TabbedPagesC(c) => (c.spec.x, c.spec.y)
    }

    function TabIndex(): int {
      TabIndexAt(Cell().0, Cell().1)
    }

    predicate IsComposite() {
      GroupC? || TabbedPagesC?
    }
  }

  /** The `id` argument of `update`: a list of path segments, or no argument
      at all (`undefined`), which the base class defaults to `[]`. */
  datatype Path = Given(segments: seq<string>) | Omitted

  function PathSize(p: Path): nat {
    if p.Omitted? then 0 else |p.segments| + 1
  }

  /** Where an `update` call ends: at the control whose own `update` body
      handles it, or in a TypeError (a missing key, or a composite called
      without a path). */
  datatype Reach = Reached(target: AnyControl) | Thrown

  function Resolve(c: AnyControl, path: Path): Reach
    decreases PathSize(path)
  {
    match c
    case GroupC(g) =>
      if path.Omitted? then Thrown
      else if path.segments == [] then Reached(c)
      else if path.segments[0] in g.controls then Resolve(g.controls[path.segments[0]], Omitted)
      else Thrown
    case TabbedPagesC(t) =>
      if path.Omitted? then Thrown
      else if |path.segments| <= 1 then Reached(c)
      else if path.segments[0] in t.pages && path.segments[1] in t.pages[path.segments[0]] then
        Resolve(t.pages[path.segments[0]][path.segments[1]], Given(path.segments[2..]))
      else Thrown
    case _ => Reached(c)
  }

  /** The only objects an `update` may change: the Cake it reaches, if any. */
  function Touched(r: Reach): set<object> {
    if r.Reached? && r.target.CakeC? then {r.target.cake} else {}
  }

  twostate predicate Delivered(r: Reach, payload: Payload)
    reads Touched(r)
  {
    r.Reached? && r.target.CakeC? ==>
      r.target.cake.value == NumberOr(old(r.target.cake.value), payload)
  }

  /** A Group forwards to the child named by the first segment and drops the
      rest of the path: a leaf child then runs with its default `[]`, and a
      composite child, which has no default, throws. */
  lemma GroupForwardsWithoutPath(g: Group, segments: seq<string>)
    requires segments != [] && segments[0] in g.controls
    ensures var child := g.controls[segments[0]];
      Resolve(GroupC(g), Given(segments)) == if child.IsComposite() then Thrown else Reached(child)
  {
  }

  /** TabbedPages forwards two segments deep and keeps the rest of the path;
      a shorter path stops at the TabbedPages itself. */
  lemma TabbedPagesForwards(t: TabbedPages, segments: seq<string>)
    ensures |segments| <= 1 ==> Resolve(TabbedPagesC(t), Given(segments)) == Reached(TabbedPagesC(t))
    ensures |segments| >= 2 && segments[0] in t.pages && segments[1] in t.pages[segments[0]] ==>
      Resolve(TabbedPagesC(t), Given(segments)) ==
      Resolve(t.pages[segments[0]][segments[1]], Given(segments[2..]))
  {
  }

  /** A path that names no child throws instead of reaching anything. */
  lemma MissingKeyThrows(c: AnyControl, segments: seq<string>)
    requires c.GroupC? && segments != [] && segments[0] !in c.group.controls
    ensures Resolve(c, Given(segments)) == Thrown
  {
  }

  /** `update(payload, id)` on any control, dispatched on its class. */
  method UpdateControl(c: AnyControl, payload: Payload, path: Path) returns (thrown: bool)
    modifies Touched(Resolve(c, path))
    ensures thrown <==> Resolve(c, path).Thrown?
    ensures Delivered(Resolve(c, path), payload)
    decreases PathSize(path), 1
  {
    match c
    case GroupC(g) =>
      thrown := g.Update(payload, path);
    case TabbedPagesC(t) =>
      thrown := t.Update(payload, path);
    case CakeC(k) =>
      k.Update(payload);
      thrown := false;
    case _ =>
      // the inherited `update` of the base class does nothing
      thrown := false;
  }

  class Group {
    const base: Control
    const spec: GroupSpec
    const controls: map<string, AnyControl>

    constructor (spec: GroupSpec, controls: map<string, AnyControl>)
      ensures this.spec == spec && this.controls == controls
      ensures fresh(base) && base.mappings == [] && base.updates == []
    {
      this.spec := spec;
      this.controls := controls;
      base := new Control();
    }

    method Update(payload: Payload, path: Path) returns (thrown: bool)
      modifies Touched(Resolve(GroupC(this), path))
      ensures thrown <==> Resolve(GroupC(this), path).Thrown?
      ensures Delivered(Resolve(GroupC(this), path), payload)
      decreases PathSize(path), 0
    {
      if path.Omitted? {
        thrown := true;     // `id.length` of undefined
      } else if path.segments != [] {
        var key := path.segments[0];
        if key in controls {
          thrown := UpdateControl(controls[key], payload, Omitted);
        } else {
          thrown := true;   // `undefined.update`
        }
      } else {
        thrown := false;    // an update for the group itself
      }
    }
  }

  class TabbedPages {
    const base: Control
    const spec: TabbedPagesSpec
    const pages: map<string, map<string, AnyControl>>
    var activePage: Option<string>

    /** `pageOrder` is the key order of the `pages` object. */
    constructor (spec: TabbedPagesSpec, pages: map<string, map<string, AnyControl>>, pageOrder: seq<string>)
      requires forall name :: name in pages <==> name in pageOrder
      ensures this.spec == spec && this.pages == pages
      ensures activePage == if pageOrder == [] then None else Some(pageOrder[0])
      ensures fresh(base) && base.mappings == [] && base.updates == []
    {
      this.spec := spec;
      this.pages := pages;
      activePage := if pageOrder == [] then None else Some(pageOrder[0]);
      base := new Control();
    }

    method Update(payload: Payload, path: Path) returns (thrown: bool)
      modifies Touched(Resolve(TabbedPagesC(this), path))
      ensures thrown <==> Resolve(TabbedPagesC(this), path).Thrown?
      ensures Delivered(Resolve(TabbedPagesC(this), path), payload)
      decreases PathSize(path), 0
    {
      if path.Omitted? {
        thrown := true;     // `id.length` of undefined
      } else if |path.segments| > 1 {
        var name, key := path.segments[0], path.segments[1];
        if name in pages && key in pages[name] {
          thrown := UpdateControl(pages[name][key], payload, Given(path.segments[2..]));
        } else {
          thrown := true;   // `undefined[...]` or `undefined.update`
        }
      } else {
        thrown := false;    // an update for the page or for the pages themselves
      }
    }
  }
}
