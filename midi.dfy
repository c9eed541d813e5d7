/** The MIDI signal decoder and the listener bus (src/midiListener.ts).
    A frame is the three bytes of one channel voice message; it decodes
    into a Note Off (status 0x8n), Note On (0x9n) or Control Change (0xBn)
    signal, and every decoded signal goes to every registered listener. */
module Midi {
  import opened JsValues

  /** One element of the message's byte array: a number in 0..255. */
  newtype Byte = b: int | 0 <= b < 256

  /** The bytes of one incoming MIDI message: status byte and two data bytes. */
  datatype Frame = Frame(status: Byte, data1: Byte, data2: Byte)

  datatype Signal =
    | NoteOn(channel: nat, key: nat, velocity: nat)
    | NoteOff(channel: nat, key: nat)
    | ControlChange(channel: nat, cc: nat, value: nat)
  {
    /** The join key between hardware and mappings: `key-<ch>-<key>` for
        note signals, `cc-<ch>-<cc>` for control changes. */
    function SourceId(): string {
      Source().Id()
    }

    /** The hardware source a signal comes from: kind, channel, key or cc. */
    function Source(): SourceKey {
      match this
      case NoteOn(ch, k, _) => SourceKey(true, ch, k)
      case NoteOff(ch, k) => SourceKey(true, ch, k)
      case ControlChange(ch, c, _) => SourceKey(false, ch, c)
    }
  }

  datatype SourceKey = SourceKey(isKey: bool, channel: nat, number: nat)
  {
    /** `key-${channel}-${key}` or `cc-${channel}-${cc}`. */
    function Id(): string {
      Prefix(isKey) + DashJoin(channel, number)
    }
  }

  function Prefix(isKey: bool): string {
    if isKey then "key-" else "cc-"
  }

  lemma PrefixCancel(p: string, x: string, y: string)
    requires p + x == p + y
    ensures x == y
  {
    assert x == (p + x)[|p|..];
  }

  /** Distinct sources have distinct ids. */
  lemma IdInjective(a: SourceKey, b: SourceKey)
    ensures a.Id() == b.Id() <==> a == b
  {
    assert a.Id()[0] == Prefix(a.isKey)[0];
    assert b.Id()[0] == Prefix(b.isKey)[0];
    if a.Id() == b.Id() && a.isKey == b.isKey {
      PrefixCancel(Prefix(a.isKey), DashJoin(a.channel, a.number), DashJoin(b.channel, b.number));
      DashJoinInjective(a.channel, a.number, b.channel, b.number);
    }
  }

  /** `data[0] >> 4`, the message code: the high four bits. */
  function Code(status: Byte): (code: nat)
    ensures code < 16
  {
    status as int / 16
  }

  /** `data[0] & 0b00001111`, the channel: the low four bits. */
  function Channel(status: Byte): (channel: nat)
    ensures channel < 16
  {
    status as int % 16
  }

  /** On a byte, shifting right by four is division by 16 and masking with
      0b00001111 is the remainder mod 16, so `Code` and `Channel` are what the
      bit operators compute. */
  lemma ShiftAndMask(bits: bv8)
    ensures (bits >> 4) as int == Code(bits as int as Byte)
    ensures (bits & 0x0F) as int == Channel(bits as int as Byte)
  {
  }

  /** The status byte splits into code and channel, each in 0..15, and they
      put it back together. */
  lemma StatusSplit(status: Byte)
    ensures Code(status) < 16 && Channel(status) < 16
    ensures 16 * Code(status) + Channel(status) == status as int
  {
  }

  /** Decodes one frame; frames of any other message code give no signal. */
  function Interpret(f: Frame): (r: Option<Signal>)
    ensures r.None? <==> Code(f.status) !in {8, 9, 11}
    ensures r.Some? ==> r.value.channel == Channel(f.status) && r.value.Source().number == f.data1 as nat
    ensures Code(f.status) == 8 ==> r == Some(NoteOff(Channel(f.status), f.data1 as nat))
    ensures Code(f.status) == 9 ==> r == Some(NoteOn(Channel(f.status), f.data1 as nat, f.data2 as nat))
    ensures Code(f.status) == 11 ==> r == Some(ControlChange(Channel(f.status), f.data1 as nat, f.data2 as nat))
  {
    var code := Code(f.status);
    var channel := Channel(f.status);
    var key := f.data1 as nat;
    if code == 8 then Some(NoteOff(channel, key))
    else if code == 9 then Some(NoteOn(channel, key, f.data2 as nat))
    else if code == 11 then Some(ControlChange(channel, key, f.data2 as nat))
    else None
  }

  /** A signal that the MIDI 1.0 byte layout can carry: 4-bit channel and
      7-bit data bytes. */
  predicate Encodable(s: Signal) {
    s.channel < 16 && s.Source().number < 128 &&
    match s
    case NoteOn(_, _, v) => v < 128
    case NoteOff(_, _) => true
    case ControlChange(_, _, v) => v < 128
  }

  /** The channel voice message of the MIDI 1.0 Detailed Specification that
      carries `s` (a Note Off is sent with release velocity 0). */
  function Encode(s: Signal): Frame
    requires Encodable(s)
  {
    match s
    case NoteOff(ch, k) => Frame(StatusByte(8, ch), k as Byte, 0)
    case NoteOn(ch, k, v) => Frame(StatusByte(9, ch), k as Byte, v as Byte)
    case ControlChange(ch, c, v) => Frame(StatusByte(11, ch), c as Byte, v as Byte)
  }

  function StatusByte(code: nat, ch: nat): Byte
    requires code < 16 && ch < 16
  {
    (16 * code + ch) as Byte
  }

  lemma StatusJoin(code: nat, ch: nat)
    requires code < 16 && ch < 16
    ensures Code(StatusByte(code, ch)) == code
    ensures Channel(StatusByte(code, ch)) == ch
  {
    var b := StatusByte(code, ch);
    assert b as int == 16 * code + ch;
  }

  /** Decoding the encoding of a signal gives the signal back. */
  lemma InterpretEncode(s: Signal)
    requires Encodable(s)
    ensures Interpret(Encode(s)) == Some(s)
  {
    match s
    case NoteOff(ch, k) =>
      StatusJoin(8, ch);
    case NoteOn(ch, k, v) =>
      StatusJoin(9, ch);
    case ControlChange(ch, c, v) =>
      StatusJoin(11, ch);
  }

  /** A Note Off frame's second data byte (release velocity) is ignored. */
  lemma NoteOffIgnoresData2(f: Frame, d: Byte)
    requires Code(f.status) == 8
    ensures Interpret(f) == Interpret(f.(data2 := d)) == Some(NoteOff(Channel(f.status), f.data1 as nat))
  {
  }

  /** A Note On with velocity 0 stays a Note On; it is not read as a Note Off. */
  lemma NoteOnVelocityZero(f: Frame)
    requires Code(f.status) == 9 && f.data2 == 0
    ensures Interpret(f) == Some(NoteOn(Channel(f.status), f.data1 as nat, 0))
  {
  }

  lemma InterpretExamples()
    ensures Interpret(Frame(0x90, 0x40, 0x7F)) == Some(NoteOn(0, 64, 127))
    ensures Interpret(Frame(0xB2, 0x07, 0x40)) == Some(ControlChange(2, 7, 64))
    ensures Interpret(Frame(0xF8, 0x00, 0x00)) == None
  {
  }

  /** Two signals share a `sourceId` exactly when they come from the same
      source: a Note On and a Note Off for one key share it, a `key-` id never
      equals a `cc-` id, and distinct channels or numbers give distinct ids. */
  lemma SourceIdIdentifiesSource(s: Signal, t: Signal)
    ensures s.SourceId() == t.SourceId() <==> s.Source() == t.Source()
  {
    IdInjective(s.Source(), t.Source());
  }

  /** An opaque listener callback, known by its identity. */
  datatype Listener = Listener(id: nat)

  /** One invocation `listener(signal)`. */
  datatype Call = Call(listener: Listener, signal: Signal)

  /** Whether some listener in `listeners` throws on `s`. */
  predicate AnyFails(listeners: seq<Listener>, s: Signal, fails: (Listener, Signal) -> bool) {
    exists i :: 0 <= i < |listeners| && fails(listeners[i], s)
  }

  /** The calls that passing `s` to `listeners` makes, in registration order:
      the loop has no `try`, so a listener that throws (`fails`) is the last
      one called. */
  function Broadcast(listeners: seq<Listener>, s: Signal, fails: (Listener, Signal) -> bool): (r: seq<Call>)
    ensures |r| <= |listeners|
    ensures forall i :: 0 <= i < |r| ==> r[i] == Call(listeners[i], s)
  {
    if listeners == [] then []
    else [Call(listeners[0], s)] + (if fails(listeners[0], s) then [] else Broadcast(listeners[1..], s, fails))
  }

  /** The i-th listener is called exactly when none before it throws; when
      none throws at all, every listener is called once. */
  lemma {:induction false} BroadcastCallsEach(listeners: seq<Listener>, s: Signal, fails: (Listener, Signal) -> bool, i: nat)
    requires i < |listeners|
    ensures i < |Broadcast(listeners, s, fails)| <==> forall j :: 0 <= j < i ==> !fails(listeners[j], s)
    ensures !AnyFails(listeners, s, fails) ==> |Broadcast(listeners, s, fails)| == |listeners|
  {
    if !fails(listeners[0], s) && |listeners| > 1 {
      var rest := listeners[1..];
      BroadcastCallsEach(rest, s, fails, if i > 0 then i - 1 else 0);
      if !AnyFails(listeners, s, fails) {
        assert !AnyFails(rest, s, fails) by {
          forall j | 0 <= j < |rest|
            ensures !fails(rest[j], s)
          {
            assert rest[j] == listeners[j + 1];
          }
        }
      }
      if i > 0 {
        assert (forall j :: 0 <= j < i ==> !fails(listeners[j], s)) <==>
               (forall j :: 0 <= j < i - 1 ==> !fails(rest[j], s)) by {
          if forall j :: 0 <= j < i - 1 ==> !fails(rest[j], s) {
            forall j | 0 <= j < i
              ensures !fails(listeners[j], s)
            {
              if j > 0 {
                assert listeners[j] == rest[j - 1];
              }
            }
          }
          if forall j :: 0 <= j < i ==> !fails(listeners[j], s) {
            forall j | 0 <= j < i - 1
              ensures !fails(rest[j], s)
            {
              assert rest[j] == listeners[j + 1];
            }
          }
        }
      }
    } else if fails(listeners[0], s) {
      assert AnyFails(listeners, s, fails);
    }
  }

  /** A list fails when its first listener or one of the rest does. */
  lemma AnyFailsCons(a: seq<Listener>, s: Signal, fails: (Listener, Signal) -> bool)
    requires a != []
    ensures AnyFails(a, s, fails) <==> fails(a[0], s) || AnyFails(a[1..], s, fails)
  {
    if AnyFails(a, s, fails) && !fails(a[0], s) {
      var i :| 0 <= i < |a| && fails(a[i], s);
      assert a[1..][i - 1] == a[i];
    }
    if AnyFails(a[1..], s, fails) {
      var i :| 0 <= i < |a[1..]| && fails(a[1..][i], s);
      assert a[i + 1] == a[1..][i];
    }
  }

  /** A list fails when its earlier listeners or its last one does. */
  lemma AnyFailsSnoc(a: seq<Listener>, l: Listener, s: Signal, fails: (Listener, Signal) -> bool)
    ensures AnyFails(a + [l], s, fails) <==> AnyFails(a, s, fails) || fails(l, s)
  {
    var al := a + [l];
    if AnyFails(a, s, fails) {
      var i :| 0 <= i < |a| && fails(a[i], s);
      assert al[i] == a[i];
    }
    if fails(l, s) {
      assert al[|a|] == l;
    }
    if AnyFails(al, s, fails) && !fails(l, s) {
      var i :| 0 <= i < |al| && fails(al[i], s);
      assert i < |a| && al[i] == a[i];
    }
  }

  /** A list with a throwing listener still has one once more are added. */
  lemma AnyFailsPrefix(a: seq<Listener>, b: seq<Listener>, s: Signal, fails: (Listener, Signal) -> bool)
    requires AnyFails(a, s, fails)
    ensures AnyFails(a + b, s, fails)
  {
    var i :| 0 <= i < |a| && fails(a[i], s);
    assert (a + b)[i] == a[i];
  }

  /** Listeners added after a set in which none throws are called after all
      of them. */
  lemma {:induction false} BroadcastAppend(a: seq<Listener>, b: seq<Listener>, s: Signal, fails: (Listener, Signal) -> bool)
    requires !AnyFails(a, s, fails)
    ensures Broadcast(a + b, s, fails) == Broadcast(a, s, fails) + Broadcast(b, s, fails)
  {
    if a == [] {
      assert a + b == b;
    } else {
      AnyFailsCons(a, s, fails);
      assert (a + b)[0] == a[0] && (a + b)[1..] == a[1..] + b;
      BroadcastAppend(a[1..], b, s, fails);
    }
  }

  /** Listeners added after one that throws are never called. */
  lemma {:induction false} BroadcastStops(a: seq<Listener>, b: seq<Listener>, s: Signal, fails: (Listener, Signal) -> bool)
    requires AnyFails(a, s, fails)
    ensures Broadcast(a + b, s, fails) == Broadcast(a, s, fails)
  {
    AnyFailsCons(a, s, fails);
    assert (a + b)[0] == a[0] && (a + b)[1..] == a[1..] + b;
    if !fails(a[0], s) {
      BroadcastStops(a[1..], b, s, fails);
    }
  }

  /** The singleton that receives raw MIDI messages and fans decoded
      signals out to its listeners. */
  class MidiListener {
    var listeners: seq<Listener>
    /** Every listener invocation made so far, oldest first. */
    var calls: seq<Call>

    constructor ()
      ensures listeners == [] && calls == []
    {
      listeners := [];
      calls := [];
    }

    /** Decodes the frame and, if it is a signal, calls the listeners with it
        in registration order. A listener that throws (as `fails` says) ends
        the loop, and the exception leaves `handle` (`threw`). An undecodable
        frame calls no one. */
    method Handle(f: Frame, fails: (Listener, Signal) -> bool) returns (threw: bool)
      modifies this
      ensures listeners == old(listeners)
      ensures Interpret(f).None? ==> calls == old(calls) && !threw
      ensures Interpret(f).Some? ==>
        && calls == old(calls) + Broadcast(listeners, Interpret(f).value, fails)
        && (threw <==> AnyFails(listeners, Interpret(f).value, fails))
    {
      threw := false;
      var signal := Interpret(f);
      if signal.Some? {
        var s := signal.value;
        var i := 0;
        while i < |listeners| && !threw
          invariant 0 <= i <= |listeners|
          invariant listeners == old(listeners)
          invariant calls == old(calls) + Broadcast(listeners[..i], s, fails)
          invariant threw <==> AnyFails(listeners[..i], s, fails)
        {
          var done := listeners[..i];
          var l := listeners[i];
          assert listeners[..i + 1] == done + [l];
          BroadcastAppend(done, [l], s, fails);
          AnyFailsSnoc(done, l, s, fails);
          calls := calls + [Call(l, s)];
          threw := fails(l, s);
          i := i + 1;
        }
        if threw {
          BroadcastStops(listeners[..i], listeners[i..], s, fails);
          AnyFailsPrefix(listeners[..i], listeners[i..], s, fails);
          assert listeners[..i] + listeners[i..] == listeners;
        } else {
          assert listeners[..i] == listeners;
        }
      }
    }

    /** Registers a listener after all earlier ones. */
    method AddListener(l: Listener)
      modifies this
      ensures listeners == old(listeners) + [l]
      ensures calls == old(calls)
    {
      listeners := listeners + [l];
    }
  }
}
