/**
 * The static pin-to-channel table PinMap_GPIO_IRQ, the vector stubs that bind
 * each interrupt vector to a (pin, channel) pair, and the table lookup used by
 * gpio_irq_init.
 */
module PinTable {
  import opened Wrappers
  import opened Registers

  /** A pin name split into its port letter (PIN_PORT) and bit position (PIN_POS). */
  datatype Pin = Pin(port: char, bit: nat)

  /** One row of PinMap_GPIO_IRQ; the pin-function field is not modelled. */
  datatype PinMapEntry = PinMapEntry(pin: Pin, channel: nat)

  /**
   * PinMap_GPIO_IRQ without its {NC, NC} terminator.  The channels are the
   * GPIO_IRQ_n names, whose suffix is hexadecimal.
   */
  const PinMapGpioIrq: seq<PinMapEntry> := [
    PinMapEntry(Pin('A', 2), 0x0),
    PinMapEntry(Pin('A', 4), 0x1),
    PinMapEntry(Pin('C', 3), 0x3),
    PinMapEntry(Pin('E', 3), 0x4),
    PinMapEntry(Pin('E', 5), 0x5),
    PinMapEntry(Pin('U', 1), 0x7),
    PinMapEntry(Pin('U', 3), 0x8),
    PinMapEntry(Pin('U', 6), 0x9),
    PinMapEntry(Pin('C', 2), 0xA),
    PinMapEntry(Pin('E', 4), 0xB),
    PinMapEntry(Pin('U', 0), 0xC),
    PinMapEntry(Pin('U', 5), 0xD),
    PinMapEntry(Pin('A', 1), 0xF),
    PinMapEntry(Pin('N', 1), 0x10),
    PinMapEntry(Pin('D', 1), 0x11),
    PinMapEntry(Pin('D', 5), 0x12),
    PinMapEntry(Pin('G', 3), 0x15)
  ]

  /** The (pin, index) pair an INTnn_IRQHandler stub passes to the dispatcher. */
  datatype Stub = Stub(pin: Pin, index: nat)

  /** The seventeen stubs INT00_IRQHandler to INT21_IRQHandler, in source order; indices are decimal. */
  const VectorStubs: seq<Stub> := [
    Stub(Pin('A', 2), 0),
    Stub(Pin('A', 4), 1),
    Stub(Pin('C', 3), 3),
    Stub(Pin('E', 3), 4),
    Stub(Pin('E', 5), 5),
    Stub(Pin('U', 1), 7),
    Stub(Pin('U', 3), 8),
    Stub(Pin('U', 6), 9),
    Stub(Pin('C', 2), 10),
    Stub(Pin('E', 4), 11),
    Stub(Pin('U', 0), 12),
    Stub(Pin('U', 5), 13),
    Stub(Pin('A', 1), 15),
    Stub(Pin('N', 1), 16),
    Stub(Pin('D', 1), 17),
    Stub(Pin('D', 5), 18),
    Stub(Pin('G', 3), 21)
  ]

  /**
   * pinmap_peripheral: the channel of the first row naming the pin, or None
   * when no row does.
   */
  function LookupChannel(table: seq<PinMapEntry>, pin: Pin): Option<nat>
  {
    if table == [] then None
    else if table[0].pin == pin then Some(table[0].channel)
    else LookupChannel(table[1..], pin)
  }

  /**
   * The lookup finds the first row naming the pin, and finds nothing exactly
   * when no row names it.
   */
  lemma {:induction false} LookupFindsFirst(table: seq<PinMapEntry>, pin: Pin)
    ensures LookupChannel(table, pin).None? <==> forall k :: 0 <= k < |table| ==> table[k].pin != pin
    ensures LookupChannel(table, pin).Some? ==>
              exists k :: 0 <= k < |table| && table[k] == PinMapEntry(pin, LookupChannel(table, pin).value)
                          && forall j :: 0 <= j < k ==> table[j].pin != pin
  {
    if table != [] && table[0].pin != pin {
      LookupFindsFirst(table[1..], pin);
      assert forall k :: 1 <= k < |table| ==> table[k] == table[1..][k - 1];
      if LookupChannel(table, pin).Some? {
        var k :| 0 <= k < |table[1..]| && table[1..][k] == PinMapEntry(pin, LookupChannel(table, pin).value)
                 && forall j :: 0 <= j < k ==> table[1..][j].pin != pin;
        assert table[k + 1] == table[1..][k];
      }
    }
  }

  /** Every channel in the table is below CHANNEL_NUM and has a control register. */
  lemma TableChannelsSupported()
    ensures forall k :: 0 <= k < |PinMapGpioIrq| ==>
              PinMapGpioIrq[k].channel < CHANNEL_NUM && Supported(PinMapGpioIrq[k].channel)
  {
  }

  /** No pin appears twice and no channel appears twice in the table. */
  lemma TableDistinct()
    ensures forall j, k :: 0 <= j < k < |PinMapGpioIrq| ==>
              PinMapGpioIrq[j].pin != PinMapGpioIrq[k].pin &&
              PinMapGpioIrq[j].channel != PinMapGpioIrq[k].channel
  {
  }

  /** A channel found by the lookup is a supported channel below CHANNEL_NUM. */
  lemma {:induction false} LookupSupported(pin: Pin)
    requires LookupChannel(PinMapGpioIrq, pin).Some?
    ensures LookupChannel(PinMapGpioIrq, pin).value < CHANNEL_NUM
    ensures Supported(LookupChannel(PinMapGpioIrq, pin).value)
  {
    LookupFindsFirst(PinMapGpioIrq, pin);
    TableChannelsSupported();
  }

  /** In a table without repeated pins, looking up the pin of row k yields the channel of row k. */
  lemma LookupAt(table: seq<PinMapEntry>, k: nat)
    requires k < |table|
    requires forall i, j :: 0 <= i < j < |table| ==> table[i].pin != table[j].pin
    ensures LookupChannel(table, table[k].pin) == Some(table[k].channel)
  {
    LookupFindsFirst(table, table[k].pin);
    var r := LookupChannel(table, table[k].pin);
    var i :| 0 <= i < |table| && table[i] == PinMapEntry(table[k].pin, r.value)
             && forall j :: 0 <= j < i ==> table[j].pin != table[k].pin;
    assert !(i < k) && !(k < i);
  }

  /** Each vector stub passes the same (pin, channel) pair as the table row in the same position. */
  lemma StubsMatchTable()
    ensures |VectorStubs| == |PinMapGpioIrq|
    ensures forall k :: 0 <= k < |VectorStubs| ==>
              VectorStubs[k] == Stub(PinMapGpioIrq[k].pin, PinMapGpioIrq[k].channel)
  {
  }

  /** Looking up the pin of any vector stub yields the index that stub dispatches. */
  lemma {:induction false} StubsAgreeWithLookup()
    ensures forall k :: 0 <= k < |VectorStubs| ==>
              LookupChannel(PinMapGpioIrq, VectorStubs[k].pin) == Some(VectorStubs[k].index)
  {
    TableDistinct();
    StubsMatchTable();
    forall k | 0 <= k < |VectorStubs|
      ensures LookupChannel(PinMapGpioIrq, VectorStubs[k].pin) == Some(VectorStubs[k].index)
    {
      LookupAt(PinMapGpioIrq, k);
    }
  }
}
