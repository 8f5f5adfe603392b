/**
 * The GPIO external-interrupt driver: its static channel table, the global
 * CurrentState, the interrupt-controller flags, the IMC control bytes and the
 * per-pin data bits, with the public operations and the dispatcher as methods
 * that update them in place.
 */
module GpioIrq {
  import opened Wrappers
  import opened Policy
  import opened Registers
  import opened PinTable

  newtype u32 = x: int | 0 <= x < 0x1_0000_0000

  /** The two conditions on which the driver calls error(), which halts the system. */
  datatype Error =
    | UnmappedPin        // gpio_irq_init: the pin has no row in PinMap_GPIO_IRQ
    | UnsupportedEvent   // gpio_irq_set: an edge other than IRQ_RISE or IRQ_FALL

  /** A callback function, identified by its entry address. */
  datatype Handler = Handler(entry: nat)

  /** One observable step of the driver, in program order. */
  datatype Action =
    | RegWrite(address: nat, value: RegByte)   // a store to byte `address` of the IMC block
    | ClearPending(irq: nat)                   // NVIC_ClearPendingIRQ
    | EnableIrq(irq: nat)                      // NVIC_EnableIRQ
    | DisableIrq(irq: nat)                     // NVIC_DisableIRQ
    | PinWrite(pin: Pin, high: bool)           // gpio_write_bit on the data register
    | Call(handler: Handler, id: u32, event: IrqEvent)  // a callback invocation

  /** The callback invocations in a trace, in order. */
  function Calls(t: seq<Action>): seq<Action>
  {
    if t == [] then []
    else Calls(t[..|t| - 1]) + (if t[|t| - 1].Call? then [t[|t| - 1]] else [])
  }

  /** Appending one action adds it to the calls exactly when it is a call. */
  lemma CallsSnoc(t: seq<Action>, a: Action)
    ensures Calls(t + [a]) == Calls(t) + (if a.Call? then [a] else [])
  {
    assert (t + [a])[..|t + [a]| - 1] == t;
  }

  /**
   * The actions of one run of INT_IRQHandler on a supported source: disarm
   * with `state | DISABLE`, the callback invocation if any, clear the pending
   * flag, re-arm with `state | ENABLE`.
   */
  function DispatchActions(src: nat, state: ActiveState, call: seq<Action>): seq<Action>
    requires Supported(src)
  {
    ReleaseWrites(src, state, DISABLE) + call + [ClearPending(src)] + ReleaseWrites(src, state, ENABLE)
  }

  /** A dispatch makes exactly the callback invocation it is given, and no other. */
  lemma DispatchCalls(src: nat, state: ActiveState, call: seq<Action>)
    requires Supported(src)
    requires call == [] || (|call| == 1 && call[0].Call?)
    ensures Calls(DispatchActions(src, state, call)) == call
  {
    var w0 := ReleaseWrites(src, state, DISABLE);
    var w1 := ReleaseWrites(src, state, ENABLE);
    CallsSnoc([], w0[0]);
    CallsSnoc([w0[0]], w0[1]);
    assert [w0[0]] + [w0[1]] == w0;
    var t := w0;
    if call != [] {
      CallsSnoc(w0, call[0]);
      assert w0 + [call[0]] == w0 + call;
    }
    t := w0 + call;
    CallsSnoc(t, ClearPending(src));
    t := t + [ClearPending(src)];
    CallsSnoc(t, w1[0]);
    CallsSnoc(t + [w1[0]], w1[1]);
    assert t + [w1[0]] + [w1[1]] == t + w1;
  }

  /** Running a dispatch after any trace adds exactly its callback invocation to the calls. */
  lemma {:induction false} DispatchAddsCall(t: seq<Action>, src: nat, state: ActiveState, call: seq<Action>)
    requires Supported(src)
    requires call == [] || (|call| == 1 && call[0].Call?)
    ensures Calls(t + DispatchActions(src, state, call)) == Calls(t) + call
  {
    var d := DispatchActions(src, state, call);
    DispatchCalls(src, state, call);
    CallsAppend(t, d);
  }

  /** The calls of a concatenation are the calls of its parts. */
  lemma {:induction false} CallsAppend(s: seq<Action>, t: seq<Action>)
    ensures Calls(s + t) == Calls(s) + Calls(t)
    decreases |t|
  {
    if t != [] {
      var u := t[..|t| - 1];
      var a := t[|t| - 1];
      assert t == u + [a];
      CallsAppend(s, u);
      CallsSnoc(s + u, a);
      CallsSnoc(u, a);
      assert s + t == (s + u) + [a];
    } else {
      assert s + t == s;
    }
  }

  /** Appending two actions, neither of them a callback invocation, leaves the calls as they were. */
  lemma CallsSkipTwo(t: seq<Action>, u: seq<Action>)
    requires |u| == 2 && !u[0].Call? && !u[1].Call?
    ensures Calls(t + u) == Calls(t)
  {
    var v := t + [u[0]];
    CallsSnoc(t, u[0]);
    CallsSnoc(v, u[1]);
    assert v + [u[1]] == t + u;
  }

  /** The actions gpio_irq_init appends (see GpioIrqDriver.Init) invoke no callback. */
  lemma InitMakesNoCalls(t: seq<Action>, pin: Pin, c: nat)
    requires Supported(c)
    ensures Calls(t + [PinWrite(pin, false)] + [ClearPending(c)] + ReleaseWrites(c, Both, ENABLE)) == Calls(t)
  {
    CallsSnoc(t, PinWrite(pin, false));
    CallsSnoc(t + [PinWrite(pin, false)], ClearPending(c));
    CallsSkipTwo(t + [PinWrite(pin, false)] + [ClearPending(c)], ReleaseWrites(c, Both, ENABLE));
  }

  /** The actions a successful gpio_irq_set appends (see GpioIrqDriver.Set) invoke no callback. */
  lemma SetMakesNoCalls(t: seq<Action>, pin: Pin, c: nat, state: ActiveState)
    requires Supported(c)
    ensures Calls(t + [DisableIrq(c)] + ReleaseWrites(c, state, ENABLE) + [PinWrite(pin, false)]
                  + [ClearPending(c)] + [ClearPending(c), EnableIrq(c)]) == Calls(t)
  {
    CallsSnoc(t, DisableIrq(c));
    CallsSkipTwo(t + [DisableIrq(c)], ReleaseWrites(c, state, ENABLE));
    var u := t + [DisableIrq(c)] + ReleaseWrites(c, state, ENABLE);
    CallsSnoc(u, PinWrite(pin, false));
    CallsSnoc(u + [PinWrite(pin, false)], ClearPending(c));
    CallsSkipTwo(u + [PinWrite(pin, false)] + [ClearPending(c)], [ClearPending(c), EnableIrq(c)]);
  }

  /** The pin level after an edge: low after a falling edge, high after a rising one. */
  function LevelAfter(e: IrqEvent): int
    requires e != IrqNone
  {
    if e == IrqFall then 0 else 1
  }

  /**
   * The edge the dispatcher infers from the sampled level: 0 means a falling
   * edge, 1 a rising edge, anything else no edge.
   */
  function EdgeOfLevel(level: int): (r: Option<IrqEvent>)
    ensures r.Some? <==> level == 0 || level == 1
    ensures r.Some? ==> r.value != IrqNone && LevelAfter(r.value) == level
  {
    if level == 0 then Some(IrqFall)
    else if level == 1 then Some(IrqRise)
    else None
  }

  /** The store sequence of CG_SetSTBYReleaseINTSrc for a supported source. */
  function ReleaseWrites(src: nat, state: ActiveState, newState: bv8): (w: seq<Action>)
    requires Supported(src)
  {
    [RegWrite(Address(src), Raw(CLR_INT_FLAG)), RegWrite(Address(src), Combined(state, newState))]
  }

  /** The effect of one action on the IMC bytes: a store in range overwrites its byte. */
  function Store(m: seq<RegByte>, a: Action): (r: seq<RegByte>)
    ensures |r| == |m|
  {
    if a.RegWrite? && a.address < |m| then m[a.address := a.value] else m
  }

  /** The IMC bytes after the stores of a trace, applied in order. */
  function ApplyWrites(m: seq<RegByte>, w: seq<Action>): (r: seq<RegByte>)
    ensures |r| == |m|
    decreases |w|
  {
    if w == [] then m else ApplyWrites(Store(m, w[0]), w[1..])
  }

  /**
   * The stores of CG_SetSTBYReleaseINTSrc leave exactly the source's control
   * byte changed, holding `state | newState`; the CLR_INT_FLAG store is
   * overwritten.
   */
  lemma ReleaseWritesEffect(m: seq<RegByte>, src: nat, state: ActiveState, newState: bv8)
    requires |m| == IMC_BYTES && Supported(src)
    ensures ApplyWrites(m, ReleaseWrites(src, state, newState)) == m[Address(src) := Combined(state, newState)]
  {
    var w := ReleaseWrites(src, state, newState);
    var m1 := Store(m, w[0]);
    assert w[1..] == [w[1]] && w[1..][1..] == [];
    assert ApplyWrites(m, w) == ApplyWrites(Store(m1, w[1]), []);
  }

  /** gpio_irq_t: the caller-owned object describing one configured pin. */
  class IrqObject {
    var pin: Pin            // port and pin_num
    var irqId: nat          // irq_id, and irq_src, which the source sets equal to it
    var event: ActiveState  // the edge policy

    constructor ()
    {
      pin := Pin('A', 0);
      irqId := 0;
      event := Invalid;
    }

    /** The object is bound to the channel the pin table gives for its pin. */
    ghost predicate Bound()
      reads this
    {
      irqId < CHANNEL_NUM && Supported(irqId) && LookupChannel(PinMapGpioIrq, pin) == Some(irqId)
    }
  }

  /** The driver's static state and the hardware state it touches. */
  class GpioIrqDriver {
    const handlers: array<Option<Handler>>   // hal_irq_handler[CHANNEL_NUM]; None is NULL
    const ids: array<u32>                    // channel_ids[CHANNEL_NUM]
    var currentState: ActiveState            // CurrentState, shared by every channel
    const imc: array<RegByte>                // the IMC control bytes
    const enabled: array<bool>               // interrupt-controller enable flag per IRQ
    const pending: array<bool>               // interrupt-controller pending flag per IRQ
    var pinData: map<Pin, bool>              // data bit of each pin written so far (true is 1)
    ghost var trace: seq<Action>             // every action so far, oldest first

    ghost predicate Valid()
      reads handlers, ids
    {
      handlers.Length == CHANNEL_NUM && ids.Length == CHANNEL_NUM &&
      imc.Length == IMC_BYTES &&
      enabled.Length == CHANNEL_NUM && pending.Length == CHANNEL_NUM && enabled != pending &&
      // a handler and its id are set and cleared together
      forall c :: 0 <= c < CHANNEL_NUM ==> handlers[c].None? ==> ids[c] == 0
    }

    /** The state at reset: empty table, every IRQ disabled and not pending. */
    constructor (initialState: ActiveState, resetImc: seq<RegByte>)
      requires |resetImc| == IMC_BYTES
      ensures Valid()
      ensures fresh(handlers) && fresh(ids) && fresh(imc) && fresh(enabled) && fresh(pending)
      ensures forall c :: 0 <= c < CHANNEL_NUM ==>
                handlers[c] == None && ids[c] == 0 && !enabled[c] && !pending[c]
      ensures imc[..] == resetImc
      ensures currentState == initialState && pinData == map[] && trace == []
    {
      handlers := new Option<Handler>[CHANNEL_NUM](_ => None);
      ids := new u32[CHANNEL_NUM](_ => 0);
      imc := new RegByte[IMC_BYTES](i => if 0 <= i < |resetImc| then resetImc[i] else Raw(0));
      enabled := new bool[CHANNEL_NUM](_ => false);
      pending := new bool[CHANNEL_NUM](_ => false);
      currentState := initialState;
      pinData := map[];
      trace := [];
    }

    /** NVIC_ClearPendingIRQ. */
    method ClearPendingIrq(irq: nat)
      requires Valid() && irq < CHANNEL_NUM
      modifies pending, this`trace
      ensures pending[..] == old(pending[..])[irq := false]
      ensures trace == old(trace) + [ClearPending(irq)]
    {
      pending[irq] := false;
      trace := trace + [ClearPending(irq)];
    }

    /**
     * Store a handler (None is NULL) and an id in one slot of the channel
     * table; a NULL handler is stored only with id 0.
     */
    method StoreSlot(c: nat, handler: Option<Handler>, id: u32)
      requires Valid() && c < CHANNEL_NUM
      requires handler.None? ==> id == 0
      modifies handlers, ids
      ensures Valid()
      ensures handlers[..] == old(handlers[..])[c := handler]
      ensures ids[..] == old(ids[..])[c := id]
    {
      handlers[c] := handler;
      ids[c] := id;
    }

    /** gpio_write_bit on the data register of a pin. */
    method WritePin(pin: Pin, high: bool)
      modifies this`pinData, this`trace
      ensures pinData == old(pinData)[pin := high]
      ensures trace == old(trace) + [PinWrite(pin, high)]
    {
      pinData := pinData[pin := high];
      trace := trace + [PinWrite(pin, high)];
    }

    /**
     * CG_SetSTBYReleaseINTSrc: store CLR_INT_FLAG and then `state | newState`
     * into the control byte of the source; no other byte changes.  The source
     * must be supported: for any other the source stores through NULL.
     */
    method SetReleaseSource(src: nat, state: ActiveState, newState: bv8)
      requires Valid() && Supported(src)
      modifies imc, this`trace
      ensures imc[..] == old(imc[..])[Address(src) := Combined(state, newState)]
      ensures trace == old(trace) + ReleaseWrites(src, state, newState)
    {
      var ptr := Address(src);
      imc[ptr] := Raw(CLR_INT_FLAG);
      trace := trace + [RegWrite(ptr, Raw(CLR_INT_FLAG))];
      imc[ptr] := Combined(state, newState);
      trace := trace + [RegWrite(ptr, Combined(state, newState))];
    }

    /** gpio_irq_enable: clear the pending flag, then enable the IRQ. */
    method Enable(obj: IrqObject)
      requires Valid() && obj.irqId < CHANNEL_NUM
      modifies enabled, pending, this`trace
      ensures pending[..] == old(pending[..])[obj.irqId := false]
      ensures enabled[..] == old(enabled[..])[obj.irqId := true]
      ensures trace == old(trace) + [ClearPending(obj.irqId), EnableIrq(obj.irqId)]
    {
      ClearPendingIrq(obj.irqId);
      enabled[obj.irqId] := true;
      trace := trace + [EnableIrq(obj.irqId)];
    }

    /** gpio_irq_disable: disable the IRQ. */
    method Disable(obj: IrqObject)
      requires Valid() && obj.irqId < CHANNEL_NUM
      modifies enabled, this`trace
      ensures enabled[..] == old(enabled[..])[obj.irqId := false]
      ensures trace == old(trace) + [DisableIrq(obj.irqId)]
    {
      enabled[obj.irqId] := false;
      trace := trace + [DisableIrq(obj.irqId)];
    }

    /**
     * gpio_irq_init once the channel of the pin is known: bind obj to the pin
     * and the channel, drive the pin's data bit low, store handler and id in
     * the channel's slot only, set the policy to Both, clear the pending flag
     * and arm the control byte with Both|ENABLE.
     */
    method Bind(obj: IrqObject, pin: Pin, c: nat, handler: Handler, id: u32)
      requires Valid() && c < CHANNEL_NUM && Supported(c)
      modifies obj, this`pinData, this`trace, handlers, ids, pending, imc
      ensures Valid()
      ensures obj.pin == pin && obj.irqId == c && obj.event == Both
      ensures handlers[..] == old(handlers[..])[c := Some(handler)]
      ensures ids[..] == old(ids[..])[c := id]
      ensures pending[..] == old(pending[..])[c := false]
      ensures imc[..] == old(imc[..])[Address(c) := Combined(Both, ENABLE)]
      ensures pinData == old(pinData)[pin := false]
      ensures trace == old(trace) + [PinWrite(pin, false)] + [ClearPending(c)] + ReleaseWrites(c, Both, ENABLE)
    {
      obj.irqId := c;
      obj.pin := pin;
      WritePin(pin, false);
      StoreSlot(c, Some(handler), id);
      obj.event := Both;
      ClearPendingIrq(c);
      SetReleaseSource(c, Both, ENABLE);
    }

    /**
     * gpio_irq_init: look up the channel of pin and bind obj to it (see Bind).
     * It neither enables the IRQ nor updates CurrentState.  A pin with no
     * channel stops in error() before anything changes.
     */
    method Init(obj: IrqObject, pin: Pin, handler: Handler, id: u32) returns (r: Outcome<Error>)
      requires Valid()
      modifies obj, this`pinData, this`trace, handlers, ids, pending, imc
      ensures Valid()
      ensures r.Fail? <==> LookupChannel(PinMapGpioIrq, pin).None?
      ensures r.Fail? ==> r.error == UnmappedPin && unchanged(obj, this, handlers, ids, pending, imc)
      ensures r.Pass? ==>
        && obj.pin == pin && obj.event == Both && obj.Bound()
        && handlers[..] == old(handlers[..])[obj.irqId := Some(handler)]
        && ids[..] == old(ids[..])[obj.irqId := id]
        && pending[..] == old(pending[..])[obj.irqId := false]
        && imc[..] == old(imc[..])[Address(obj.irqId) := Combined(Both, ENABLE)]
        && pinData == old(pinData)[pin := false]
        && currentState == old(currentState)
        && trace == old(trace) + [PinWrite(pin, false)] + [ClearPending(obj.irqId)]
                    + ReleaseWrites(obj.irqId, Both, ENABLE)
    {
      var found := LookupChannel(PinMapGpioIrq, pin);
      if found.None? {
        return Fail(UnmappedPin);
      }
      LookupSupported(pin);
      Bind(obj, pin, found.value, handler, id);
      r := Pass;
    }

    /**
     * gpio_irq_free: clear the pending flag, empty the channel's slot only and
     * disable the IRQ.
     */
    method Free(obj: IrqObject)
      requires Valid() && obj.irqId < CHANNEL_NUM
      modifies handlers, ids, pending, enabled, this`trace
      ensures Valid()
      ensures handlers[..] == old(handlers[..])[obj.irqId := None]
      ensures ids[..] == old(ids[..])[obj.irqId := 0]
      ensures pending[..] == old(pending[..])[obj.irqId := false]
      ensures enabled[..] == old(enabled[..])[obj.irqId := false]
      ensures trace == old(trace) + [ClearPending(obj.irqId), DisableIrq(obj.irqId)]
    {
      ClearPendingIrq(obj.irqId);
      StoreSlot(obj.irqId, None, 0);
      Disable(obj);
    }

    /**
     * The second half of gpio_irq_set, once obj->event holds the new policy:
     * copy it to CurrentState; if it is not Invalid, arm the channel's control
     * byte with it and drive the pin low, otherwise drive the pin high; then
     * clear the pending flag and enable the IRQ.
     */
    method ApplyPolicy(obj: IrqObject)
      requires Valid() && obj.Bound()
      modifies this`currentState, this`pinData, this`trace, imc, pending, enabled
      ensures currentState == obj.event
      ensures obj.event != Invalid ==>
        && imc[..] == old(imc[..])[Address(obj.irqId) := Combined(obj.event, ENABLE)]
        && pinData == old(pinData)[obj.pin := false]
        && trace == old(trace) + ReleaseWrites(obj.irqId, obj.event, ENABLE) + [PinWrite(obj.pin, false)]
                    + [ClearPending(obj.irqId)] + [ClearPending(obj.irqId), EnableIrq(obj.irqId)]
      ensures obj.event == Invalid ==>
        && imc[..] == old(imc[..])
        && pinData == old(pinData)[obj.pin := true]
        && trace == old(trace) + [PinWrite(obj.pin, true)]
                    + [ClearPending(obj.irqId)] + [ClearPending(obj.irqId), EnableIrq(obj.irqId)]
      ensures pending[..] == old(pending[..])[obj.irqId := false]
      ensures enabled[..] == old(enabled[..])[obj.irqId := true]
    {
      currentState := obj.event;
      if obj.event != Invalid {
        SetReleaseSource(obj.irqId, obj.event, ENABLE);
        WritePin(obj.pin, false);
      } else {
        WritePin(obj.pin, true);
      }
      ClearPendingIrq(obj.irqId);
      Enable(obj);
    }

    /**
     * gpio_irq_set: disable the IRQ, compute the new policy, record it in
     * obj->event and in CurrentState, arm the control byte with it (the policy
     * is never Invalid, so the pin is always driven low), clear the pending
     * flag and enable the IRQ.  An unsupported edge stops in error() after the
     * IRQ has been disabled.
     */
    method Set(obj: IrqObject, event: IrqEvent, enable: u32) returns (r: Outcome<Error>)
      requires Valid() && obj.Bound()
      modifies obj`event, this`currentState, this`pinData, this`trace, imc, pending, enabled
      ensures Valid() && obj.Bound()
      ensures r.Fail? <==> event == IrqNone
      ensures r.Fail? ==>
        && r.error == UnsupportedEvent
        && enabled[..] == old(enabled[..])[obj.irqId := false]
        && unchanged(obj, imc, pending) && currentState == old(currentState) && pinData == old(pinData)
        && trace == old(trace) + [DisableIrq(obj.irqId)]
      ensures r.Pass? ==> obj.event == NextState(old(obj.event), event, enable != 0).value
      ensures r.Pass? ==> obj.event != Invalid && currentState == obj.event
      ensures r.Pass? ==> imc[..] == old(imc[..])[Address(obj.irqId) := Combined(obj.event, ENABLE)]
      ensures r.Pass? ==> pinData == old(pinData)[obj.pin := false]
      ensures r.Pass? ==> pending[..] == old(pending[..])[obj.irqId := false]
      ensures r.Pass? ==> enabled[..] == old(enabled[..])[obj.irqId := true]
      ensures r.Pass? ==>
        trace == old(trace) + [DisableIrq(obj.irqId)] + ReleaseWrites(obj.irqId, obj.event, ENABLE)
                 + [PinWrite(obj.pin, false)] + [ClearPending(obj.irqId)]
                 + [ClearPending(obj.irqId), EnableIrq(obj.irqId)]
    {
      Disable(obj);
      var next := NextState(obj.event, event, enable != 0);
      if next.None? {
        return Fail(UnsupportedEvent);
      }
      obj.event := next.value;
      ApplyPolicy(obj);
      r := Pass;
    }

    /**
     * INT_IRQHandler: disarm the channel with CurrentState|DISABLE, infer the
     * edge from the sampled pin level, call the channel's handler once with
     * its id and that edge (no call for a level other than 0 or 1), clear the
     * pending flag and re-arm with CurrentState|ENABLE.  The handler is called
     * without a NULL check, so one must be registered when a call is made.
     */
    method IrqHandler(pin: Pin, index: nat, level: int) returns (fired: Option<IrqEvent>)
      requires Valid() && index < CHANNEL_NUM && Supported(index)
      requires level == 0 || level == 1 ==> handlers[index].Some?
      modifies imc, pending, this`trace
      ensures Valid()
      ensures fired == EdgeOfLevel(level)
      ensures imc[..] == old(imc[..])[Address(index) := Combined(currentState, ENABLE)]
      ensures pending[..] == old(pending[..])[index := false]
      ensures trace == old(trace) + DispatchActions(index, currentState,
                if fired.Some? then [Call(handlers[index].value, ids[index], fired.value)] else [])
    {
      SetReleaseSource(index, currentState, DISABLE);
      fired := EdgeOfLevel(level);
      var call := [];
      if fired.Some? {
        call := [Call(handlers[index].value, ids[index], fired.value)];
        trace := trace + call;
      }
      ClearPendingIrq(index);
      SetReleaseSource(index, currentState, ENABLE);
    }

    /** The INTnn_IRQHandler vector stubs: each dispatches its fixed (pin, index) pair. */
    method Vector(k: nat, level: int) returns (fired: Option<IrqEvent>)
      requires Valid() && k < |VectorStubs|
      requires level == 0 || level == 1 ==> handlers[VectorStubs[k].index].Some?
      modifies imc, pending, this`trace
      ensures Valid()
      ensures fired == EdgeOfLevel(level)
      ensures
        var c := VectorStubs[k].index;
        && Supported(c)
        && pending[..] == old(pending[..])[c := false]
        && imc[..] == old(imc[..])[Address(c) := Combined(currentState, ENABLE)]
        && trace == old(trace) + DispatchActions(c, currentState,
             if fired.Some? then [Call(handlers[c].value, ids[c], fired.value)] else [])
    {
      StubsMatchTable();
      TableChannelsSupported();
      fired := IrqHandler(VectorStubs[k].pin, VectorStubs[k].index, level);
    }
  }
}
