/**
 * Client scenarios: what a caller of the driver can conclude from the
 * contracts of its operations alone.
 */
module Scenarios {
  import opened Wrappers
  import opened Policy
  import opened Registers
  import opened PinTable
  import opened GpioIrq

  /**
   * gpio_irq_init followed by gpio_irq_free on any mapped pin leaves the pin's
   * channel unregistered, disabled and not pending, and every other slot as it was.
   */
  method InitThenFree(d: GpioIrqDriver, pin: Pin, h: Handler, id: u32)
    requires d.Valid() && LookupChannel(PinMapGpioIrq, pin).Some?
    modifies d, d.handlers, d.ids, d.pending, d.imc, d.enabled
    ensures d.Valid()
    ensures
      var c := LookupChannel(PinMapGpioIrq, pin).value;
      && c < CHANNEL_NUM
      && d.handlers[..] == old(d.handlers[..])[c := None]
      && d.ids[..] == old(d.ids[..])[c := 0]
      && !d.enabled[c] && !d.pending[c]
  {
    LookupSupported(pin);
    var obj := new IrqObject();
    var r := d.Init(obj, pin, h, id);
    assert r.Pass?;
    d.Free(obj);
  }

  /**
   * The driver does not keep "an enabled channel has a handler": after
   * gpio_irq_free, a gpio_irq_set on the same object enables the IRQ again
   * while its slot is NULL, so the next edge on the pin would call NULL.
   */
  method SetAfterFreeEnablesEmptySlot(d: GpioIrqDriver, pin: Pin, h: Handler, id: u32)
    requires d.Valid() && LookupChannel(PinMapGpioIrq, pin).Some?
    modifies d, d.handlers, d.ids, d.pending, d.imc, d.enabled
    ensures
      var c := LookupChannel(PinMapGpioIrq, pin).value;
      c < CHANNEL_NUM && d.enabled[c] && d.handlers[c] == None
  {
    LookupSupported(pin);
    var obj := new IrqObject();
    var r := d.Init(obj, pin, h, id);
    assert r.Pass?;
    d.Free(obj);
    r := d.Set(obj, IrqRise, 1);
  }

  /** gpio_irq_enable after gpio_irq_free likewise enables a channel whose slot is NULL. */
  method EnableAfterFreeEnablesEmptySlot(d: GpioIrqDriver, pin: Pin, h: Handler, id: u32)
    requires d.Valid() && LookupChannel(PinMapGpioIrq, pin).Some?
    modifies d, d.handlers, d.ids, d.pending, d.imc, d.enabled
    ensures
      var c := LookupChannel(PinMapGpioIrq, pin).value;
      c < CHANNEL_NUM && d.enabled[c] && d.handlers[c] == None
  {
    LookupSupported(pin);
    var obj := new IrqObject();
    var r := d.Init(obj, pin, h, id);
    assert r.Pass?;
    d.Free(obj);
    d.Enable(obj);
  }

  /**
   * On any mapped pin, gpio_irq_init with handler h and id followed by
   * gpio_irq_set for IRQ_RISE registers h and id on the pin's channel, sets
   * the global state to Both and invokes no callback.
   */
  method ArmForRise(d: GpioIrqDriver, pin: Pin, h: Handler, id: u32) returns (c: nat)
    requires d.Valid() && LookupChannel(PinMapGpioIrq, pin).Some?
    modifies d, d.handlers, d.ids, d.pending, d.imc, d.enabled
    ensures d.Valid()
    ensures c == LookupChannel(PinMapGpioIrq, pin).value && c < CHANNEL_NUM && Supported(c)
    ensures d.handlers[c] == Some(h) && d.ids[c] == id && d.currentState == Both
    ensures Calls(d.trace) == Calls(old(d.trace))
  {
    LookupSupported(pin);
    c := LookupChannel(PinMapGpioIrq, pin).value;
    var obj := new IrqObject();
    ghost var t0 := d.trace;
    var r := d.Init(obj, pin, h, id);
    assert r.Pass?;
    assert obj.irqId == c;
    InitMakesNoCalls(t0, pin, c);
    assert Calls(d.trace) == Calls(t0);
    ghost var t1 := d.trace;
    ghost var h1 := d.handlers[..];
    ghost var i1 := d.ids[..];
    r := d.Set(obj, IrqRise, 1);
    assert d.handlers[..] == h1 && d.ids[..] == i1;
    assert obj.event == Both;
    SetMakesNoCalls(t1, pin, c, Both);
  }

  /**
   * After ArmForRise, a dispatch of the pin's channel that samples level 1
   * calls h(id, IRQ_RISE) exactly once and re-arms the channel with Both.
   */
  method RiseDeliveredOnce(d: GpioIrqDriver, pin: Pin, h: Handler, id: u32)
    requires d.Valid() && LookupChannel(PinMapGpioIrq, pin).Some?
    modifies d, d.handlers, d.ids, d.pending, d.imc, d.enabled
    ensures d.Valid()
    ensures
      var c := LookupChannel(PinMapGpioIrq, pin).value;
      && Supported(c)
      && Calls(d.trace) == Calls(old(d.trace)) + [Call(h, id, IrqRise)]
      && d.imc[Address(c)] == Combined(Both, ENABLE) && !d.pending[c]
  {
    var c := ArmForRise(d, pin, h, id);
    ghost var before := d.trace;
    var fired := d.IrqHandler(pin, c, 1);
    DispatchAddsCall(before, c, Both, [Call(h, id, IrqRise)]);
  }

  /**
   * A second gpio_irq_init on the same mapped pin overwrites the channel's
   * slot with the second handler and id and leaves every other slot as it was.
   */
  method SecondInitOverwrites(d: GpioIrqDriver, pin: Pin, h1: Handler, id1: u32, h2: Handler, id2: u32)
    requires d.Valid() && LookupChannel(PinMapGpioIrq, pin).Some?
    modifies d, d.handlers, d.ids, d.pending, d.imc
    ensures d.Valid()
    ensures
      var c := LookupChannel(PinMapGpioIrq, pin).value;
      && c < CHANNEL_NUM
      && d.handlers[..] == old(d.handlers[..])[c := Some(h2)]
      && d.ids[..] == old(d.ids[..])[c := id2]
  {
    LookupSupported(pin);
    var first := new IrqObject();
    var r := d.Init(first, pin, h1, id1);
    assert r.Pass?;
    var second := new IrqObject();
    r := d.Init(second, pin, h2, id2);
    assert r.Pass?;
  }

  /**
   * The dispatcher re-arms with the single CurrentState: with channel 0 (pin
   * PA2) and channel 1 (pin PA4) both initialised to Both, switching channel 1
   * to Rising and then dispatching on channel 0 re-arms channel 0 with Rising
   * although channel 0's own policy is still Both.
   */
  method RearmUsesGlobalState(d: GpioIrqDriver, obj0: IrqObject, obj1: IrqObject)
    requires d.Valid() && obj0.Bound() && obj1.Bound()
    requires obj0.pin == Pin('A', 2) && obj1.pin == Pin('A', 4)
    requires obj0.event == Both && obj1.event == Both && d.handlers[0].Some?
    modifies d, d.pending, d.imc, d.enabled, obj1
    ensures obj0.event == Both && obj1.event == Rising
    ensures d.imc[Address(0)] == Combined(Rising, ENABLE)
  {
    LookupAt(PinMapGpioIrq, 0);
    LookupAt(PinMapGpioIrq, 1);
    TableDistinct();
    assert obj0.irqId == 0 && obj1.irqId == 1;
    var r := d.Set(obj1, IrqFall, 0);
    assert d.currentState == Rising;
    var fired := d.IrqHandler(Pin('A', 2), 0, 0);
  }
}
