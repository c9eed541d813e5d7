/** The mapping registry (src/stores/mappings.ts): mappings that bind
    themselves to their control, the `sourceId → mapping` table, learn mode
    and unmap mode (`maybeMapTo`), and the MIDI listener that routes each
    signal to the mapping learned for its source. */
module StoreMappings {
  import opened JsValues
  import opened Midi
  import Controls
  import opened Mappings

  /** Moves its fader on Control Change; constructing it registers it on
      the fader's mapping list. */
  class ControllerToFaderMapping {
    const controller: Controls.Fader

    constructor (controller: Controls.Fader)
      modifies controller.base
      ensures this.controller == controller
      ensures controller.base.mappings == old(controller.base.mappings) + [this]
      ensures controller.base.updates == old(controller.base.updates)
    {
      this.controller := controller;
      new;
      controller.base.AddMapping(this);
    }

    method HandleSignal(signal: Signal)
      modifies controller, controller.base
      ensures Handled(FaderMapping(this), signal)
    {
      if signal.ControlChange? {
        controller.SetNormValue(Unit(signal.value));
      }
    }
  }

  /** Presses and releases its pad on Note On and Note Off; constructing it
      registers it on the pad's mapping list. */
  class KeyToPadMapping {
    const controller: Controls.Pad

    constructor (controller: Controls.Pad)
      modifies controller.base
      ensures this.controller == controller
      ensures controller.base.mappings == old(controller.base.mappings) + [this]
      ensures controller.base.updates == old(controller.base.updates)
    {
      this.controller := controller;
      new;
      controller.base.AddMapping(this);
    }

    method HandleSignal(signal: Signal)
      modifies controller, controller.base
      ensures Handled(PadMapping(this), signal)
    {
      if signal.NoteOn? {
        controller.Press(Unit(signal.velocity));
      } else if signal.NoteOff? {
        controller.Release();
      }
    }
  }

  datatype Mapping = FaderMapping(fm: ControllerToFaderMapping) | PadMapping(pm: KeyToPadMapping)
  {
    /** The mapping object itself, as held in a control's `mappings` list. */
    function Ref(): object {
      match this
      case FaderMapping(fm) => fm
      case PadMapping(pm) => pm
    }

    /** The base part of the control the mapping is bound to. */
    function Owner(): Controls.Control {
      match this
      case FaderMapping(fm) => fm.controller.base
      case PadMapping(pm) => pm.controller.base
    }

    /** What `handleSignal` may change: the bound control. */
    function Targets(): set<object> {
      match this
      case FaderMapping(fm) => {fm.controller, fm.controller.base}
      case PadMapping(pm) => {pm.controller, pm.controller.base}
    }
  }

  /** The effect of `m.handleSignal(signal)`: a fader mapping moves its fader
      to `value / 127` of its range on Control Change; a pad mapping presses
      with `velocity / 127` on Note On and releases on Note Off; every other
      signal leaves the control as it was. The mapping list never changes. */
  twostate predicate Handled(m: Mapping, signal: Signal)
    reads m.Targets()
  {
    match m
    case FaderMapping(fm) =>
      var f := fm.controller;
      && f.base.mappings == old(f.base.mappings)
      && if signal.ControlChange? then
           && f.value == f.spec.Denormalize(Unit(signal.value))
           && f.base.updates == old(f.base.updates) + [Number(f.value)]
         else
           f.value == old(f.value) && f.base.updates == old(f.base.updates)
    case PadMapping(pm) =>
      var p := pm.controller;
      && p.base.mappings == old(p.base.mappings)
      && match signal
         case NoteOn(_, _, velocity) =>
           p.pressed && p.base.updates == old(p.base.updates) + [PressWithVelocity(Unit(velocity))]
         case NoteOff(_, _) =>
           !p.pressed && p.base.updates == old(p.base.updates) + [Payload.Release]
         case ControlChange(_, _, _) =>
           p.pressed == old(p.pressed) && p.base.updates == old(p.base.updates)
  }

  /** The kind of hardware source waiting to be learned. */
  datatype SourceKind = Key | CC

  datatype MidiSource = MidiSource(id: string, kind: SourceKind)

  /** A `cc` source is learned only onto a Fader and a `key` source only onto
      a Pad. */
  predicate Learnable(kind: SourceKind, controller: Controls.AnyControl) {
    match kind
    case CC => controller.FaderC?
    case Key => controller.PadC?
  }

  /** The error reported when the kinds do not fit. */
  function Mismatch(kind: SourceKind): string {
    match kind
    case CC => "control change to non-fader not implemented"
    case Key => "note on to non-pad not implemented"
  }

  /** The table once every entry whose mapping is in `removed` is deleted. */
  function Unlinked(table: map<string, Mapping>, removed: seq<object>): map<string, Mapping> {
    map k | k in table && table[k].Ref() !in removed :: table[k]
  }

  /** The mapping a signal is routed to: the one stored under its id. */
  function Route(signal: Signal, table: map<string, Mapping>): Option<Mapping> {
    if signal.SourceId() in table then Some(table[signal.SourceId()]) else None
  }

  /** After learning a mapping for a source, exactly the signals from that
      source reach it (a Note On and a Note Off for the same key alike); the
      routes of all other signals are what they were. */
  lemma LearnedRoutes(table: map<string, Mapping>, source: SourceKey, m: Mapping, signal: Signal)
    ensures Route(signal, table[source.Id() := m]) ==
      if signal.Source() == source then Some(m) else Route(signal, table)
  {
    IdInjective(signal.Source(), source);
  }

  /** Unmapping a control deletes every entry bound to it: once its list is
      emptied, no remaining entry refers to a mapping that list held, and
      every entry bound elsewhere stays. */
  lemma UnlinkedKeepsOthers(table: map<string, Mapping>, removed: seq<object>, k: string)
    requires k in table
    ensures k in Unlinked(table, removed) <==> table[k].Ref() !in removed
    ensures k in Unlinked(table, removed) ==> Unlinked(table, removed)[k] == table[k]
  {
  }

  /** A mapping that the entry for its source no longer holds but that is
      still on its control's list: after a repeated learn for one source, the
      replaced mapping keeps its back-reference. */
  predicate Stale(m: Mapping, id: string, table: map<string, Mapping>)
    reads m.Owner()
  {
    m.Ref() in m.Owner().mappings && id in table && table[id] != m
  }

  /** The `mappings` store. */
  class MappingsStore {
    /** `sourceId → mapping`: at most one mapping per source. */
    var mappings: map<string, Mapping>
    /** The source that the next `maybeMapTo` learns, if any. */
    var midiSourceForMapping: Option<MidiSource>
    /** Unmap mode. */
    var removeMapping: bool
    /** The `console.error` messages, oldest first. */
    var errors: seq<string>

    constructor ()
      ensures mappings == map[] && midiSourceForMapping == None
      ensures !removeMapping && errors == []
    {
      mappings := map[];
      midiSourceForMapping := None;
      removeMapping := false;
      errors := [];
    }

    /** Every entry of the table is on the mapping list of the control it is
        bound to. (A control's list may hold more: a repeated learn replaces
        the entry but leaves the old mapping on its control.) */
    ghost predicate BackRefs()
      reads this, set k | k in mappings :: mappings[k].Owner()
    {
      forall k :: k in mappings ==> mappings[k].Ref() in mappings[k].Owner().mappings
    }

    /** `maybeMapTo(controller)`, called when a control is clicked: in unmap
        mode, unbinds everything bound to it; otherwise, if a source is
        waiting and fits the control, binds it. */
    method MaybeMapTo(controller: Controls.AnyControl)
      modifies this, controller.Base()
      ensures removeMapping == old(removeMapping)
      ensures controller.Base().updates == old(controller.Base().updates)
      ensures old(removeMapping) ==>
        && controller.Base().mappings == []
        && mappings == Unlinked(old(mappings), old(controller.Base().mappings))
        && midiSourceForMapping == old(midiSourceForMapping)
        && errors == old(errors)
      ensures !old(removeMapping) && old(midiSourceForMapping).Some? &&
              Learnable(old(midiSourceForMapping).value.kind, controller) ==>
        var source := old(midiSourceForMapping).value;
        && source.id in mappings
        && mappings == old(mappings)[source.id := mappings[source.id]]
        && fresh(mappings[source.id].Ref())
        && mappings[source.id].Owner() == controller.Base()
        && (mappings[source.id].FaderMapping? <==> source.kind == CC)
        && controller.Base().mappings == old(controller.Base().mappings) + [mappings[source.id].Ref()]
        && midiSourceForMapping == None
        && errors == old(errors)
      ensures !old(removeMapping) && old(midiSourceForMapping).Some? &&
              !Learnable(old(midiSourceForMapping).value.kind, controller) ==>
        && mappings == old(mappings)
        && controller.Base().mappings == old(controller.Base().mappings)
        && midiSourceForMapping == old(midiSourceForMapping)
        && errors == old(errors) + [Mismatch(old(midiSourceForMapping).value.kind)]
      ensures !old(removeMapping) && old(midiSourceForMapping).None? ==>
        && mappings == old(mappings)
        && controller.Base().mappings == old(controller.Base().mappings)
        && midiSourceForMapping == None
        && errors == old(errors)
      ensures old(BackRefs()) ==> BackRefs()
      ensures old(BackRefs()) && !old(removeMapping) && old(midiSourceForMapping).Some? &&
              Learnable(old(midiSourceForMapping).value.kind, controller) &&
              old(midiSourceForMapping).value.id in old(mappings) ==>
        Stale(old(mappings[midiSourceForMapping.value.id]), old(midiSourceForMapping).value.id, mappings)
    {
      if removeMapping {
        Unmap(controller.Base());
      } else if midiSourceForMapping.Some? {
        Learn(controller, midiSourceForMapping.value);
      }
    }

    /** Unmap mode: empties the control's list, then walks the table and
        deletes every entry whose mapping that list held. */
    method Unmap(base: Controls.Control)
      modifies this, base
      ensures base.mappings == [] && base.updates == old(base.updates)
      ensures mappings == Unlinked(old(mappings), old(base.mappings))
      ensures midiSourceForMapping == old(midiSourceForMapping)
      ensures removeMapping == old(removeMapping) && errors == old(errors)
      ensures old(BackRefs()) ==> BackRefs()
    {
      var removedMappings := base.mappings;
      base.RemoveMappings();
      var table := mappings;
      var pending := mappings.Keys;
      while pending != {}
        invariant pending <= table.Keys
        invariant forall k :: k in mappings <==>
          k in table && (k in pending || table[k].Ref() !in removedMappings)
        invariant forall k :: k in mappings ==> mappings[k] == table[k]
        invariant base.mappings == [] && base.updates == old(base.updates)
        invariant midiSourceForMapping == old(midiSourceForMapping)
        invariant removeMapping == old(removeMapping) && errors == old(errors)
        decreases pending
      {
        var sourceId :| sourceId in pending;
        if mappings[sourceId].Ref() in removedMappings {
          mappings := mappings - {sourceId};
        }
        pending := pending - {sourceId};
      }
      assert mappings == Unlinked(table, removedMappings);
    }

    /** Learn mode with `source` pending: binds it to the control when the
        kinds fit, and reports an error otherwise. */
    method Learn(controller: Controls.AnyControl, source: MidiSource)
      modifies this, controller.Base()
      ensures controller.Base().updates == old(controller.Base().updates)
      ensures removeMapping == old(removeMapping)
      ensures Learnable(source.kind, controller) ==>
        && source.id in mappings
        && mappings == old(mappings)[source.id := mappings[source.id]]
        && fresh(mappings[source.id].Ref())
        && mappings[source.id].Owner() == controller.Base()
        && (mappings[source.id].FaderMapping? <==> source.kind == CC)
        && controller.Base().mappings == old(controller.Base().mappings) + [mappings[source.id].Ref()]
        && midiSourceForMapping == None
        && errors == old(errors)
      ensures !Learnable(source.kind, controller) ==>
        && mappings == old(mappings)
        && controller.Base().mappings == old(controller.Base().mappings)
        && midiSourceForMapping == old(midiSourceForMapping)
        && errors == old(errors) + [Mismatch(source.kind)]
      ensures old(BackRefs()) ==> BackRefs()
      ensures old(BackRefs()) && Learnable(source.kind, controller) && source.id in old(mappings) ==>
        Stale(old(mappings[source.id]), source.id, mappings)
    {
      if Learnable(source.kind, controller) {
        Bind(controller, source);
      } else {
        errors := errors + [Mismatch(source.kind)];
      }
    }

    /** `new ControllerToFaderMapping(controller)` or `new
        KeyToPadMapping(controller)`, stored under the pending id. */
    method Bind(controller: Controls.AnyControl, source: MidiSource)
      requires Learnable(source.kind, controller)
      modifies this, controller.Base()
      ensures controller.Base().updates == old(controller.Base().updates)
      ensures removeMapping == old(removeMapping) && errors == old(errors)
      ensures source.id in mappings
      ensures mappings == old(mappings)[source.id := mappings[source.id]]
      ensures fresh(mappings[source.id].Ref())
      ensures mappings[source.id].Owner() == controller.Base()
      ensures mappings[source.id].FaderMapping? <==> source.kind == CC
      ensures controller.Base().mappings == old(controller.Base().mappings) + [mappings[source.id].Ref()]
      ensures midiSourceForMapping == None
      ensures old(BackRefs()) ==> BackRefs()
      ensures old(BackRefs()) && source.id in old(mappings) ==> Stale(old(mappings[source.id]), source.id, mappings)
    {
      var c: Mapping;
      if controller.FaderC? {
        var m := new ControllerToFaderMapping(controller.fader);
        c := FaderMapping(m);
      } else {
        var m := new KeyToPadMapping(controller.pad);
        c := PadMapping(m);
      }
      mappings := mappings[source.id := c];
      midiSourceForMapping := None;
    }

    /** The listener registered with the MIDI listener: hands the signal to
        the mapping stored under its `sourceId`, if there is one. */
    method Dispatch(signal: Signal)
      modifies if Route(signal, mappings).Some? then Route(signal, mappings).value.Targets() else {}
      ensures Route(signal, mappings).Some? ==> Handled(Route(signal, mappings).value, signal)
    {
      var id := signal.SourceId();
      if id in mappings {
        match mappings[id]
        case FaderMapping(fm) => fm.HandleSignal(signal);
        case PadMapping(pm) => pm.HandleSignal(signal);
      }
    }
  }

  // ----- the two call sites as written -----

  /** A JavaScript property value: a string, or a function returning one. */
  datatype JsValue = Str(s: string) | Fn(result: string)

  /** `signal.sourceId`: the signal classes store the id as a string field. */
  function SourceIdProperty(signal: Signal): JsValue {
    Str(signal.SourceId())
  }

  /** Calling a property value; calling a non-function is a TypeError. */
  function Invoke(v: JsValue): Option<string> {
    if v.Fn? then Some(v.result) else None
  }

  /** What the listener does as written: `signal.sourceId()` either yields an
      id to look up (`Some(route)`) or throws (`None`). */
  function ListenerAsWritten(signal: Signal, table: map<string, Mapping>): Option<Option<Mapping>> {
    match Invoke(SourceIdProperty(signal))
    case None => None
    case Some(id) => Some(if id in table then Some(table[id]) else None)
  }

  /** As written, the listener throws on every signal before it looks
      anything up, so even a signal from a learned source reaches no mapping;
      the field lookup that `Dispatch` does routes it. */
  lemma ListenerAsWrittenThrows(signal: Signal, table: map<string, Mapping>)
    ensures ListenerAsWritten(signal, table) == None
    ensures signal.SourceId() in table ==> Route(signal, table) == Some(table[signal.SourceId()])
  {
  }

  /** The methods of the base control class the store imports
      (`tabIndex`, `addMapping`, `removeMappings`, `update`). */
  const ControlMethods: set<string> := {"tabIndex", "addMapping", "removeMappings", "update"}

  /** The outcome of unmap mode as written: `controller.removeMappingsAndList()`
      is looked up on that class; a missing method is a TypeError (`None`)
      thrown before the table or the control's list is changed. */
  function UnmapAsWritten(table: map<string, Mapping>, list: seq<object>): Option<(map<string, Mapping>, seq<object>)> {
    if "removeMappingsAndList" in ControlMethods then Some((Unlinked(table, list), [])) else None
  }

  /** As written, unmap mode throws for every control and every table, so a
      learned mapping can never be removed; the corrected unmap removes it. */
  lemma UnmapAsWrittenThrows(table: map<string, Mapping>, list: seq<object>, id: string)
    requires id in table && table[id].Ref() in list
    ensures UnmapAsWritten(table, list) == None
    ensures id !in Unlinked(table, list)
  {
  }
}
