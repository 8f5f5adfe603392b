# GPIO external-interrupt driver for the TMPM4KN (mbed HAL)

This project is a Dafny model of `gpio_irq_api.c`, the mbed `gpio_irq` HAL driver for the
Toshiba TMPM4KN. The driver connects 17 GPIO pins to external interrupt channels 0..21.

- The caller's `gpio_irq_t` object is the class `GpioIrq.IrqObject`. It holds the pin, the channel
  (`irq_id`, which the driver also uses as `irq_src`) and the edge policy `event`.
- The driver's static state and the hardware it touches make up the class `GpioIrq.GpioIrqDriver`:
  - the channel table: `hal_irq_handler[22]` and `channel_ids[22]`;
  - the single global `CurrentState`;
  - the IMC control bytes of the interrupt-source block;
  - the interrupt controller's per-IRQ enable and pending flags;
  - the data bit of each pin.

  `gpio_irq_init`, `gpio_irq_free`, `gpio_irq_set`, `gpio_irq_enable`, `gpio_irq_disable`,
  `INT_IRQHandler`, `CG_SetSTBYReleaseINTSrc` and the `INTnn_IRQHandler` vector stubs are its
  methods. Each method states its whole new state. It also states the actions it appends to a
  ghost trace: register stores, interrupt-controller operations, pin writes and callback
  invocations, in program order.
- The edge-policy transition at the heart of `gpio_irq_set` is the pure function
  `Policy.NextState`. It is specified against the sets of edges a policy detects (`Policy.Edges`):
  - enabling an edge adds it to the set;
  - disabling an edge removes it, except that an empty result becomes "both edges";
  - so the policy is never Invalid.
- The register map of `CG_SetSTBYReleaseINTSrc` is `Registers.ControlRegister`. It is proved
  injective, and it is defined exactly for the sources 0..18 and 21.
- The literal tables (`PinMap_GPIO_IRQ` and the vector stubs) are in module `PinTable`. They are
  proved consistent with each other and with the register map.
- Module `Scenarios` holds client-level consequences drawn from the method contracts alone.

Modelling choices:

- `error()` does not return. An operation that reaches it returns `Fail` after the effects it has
  already had. `gpio_irq_set` has already disabled the IRQ at that point.
- `ActiveState | NewState` is the value `Combined(state, newState)`. The numeric encoding of
  `CG_INTActiveState` is not part of this model.
- The IMC registers are addressed as one byte block, with `IMCnnn` at byte `nnn`.
- `CurrentState` starts from a constructor argument.
- The sampled pin level in the dispatcher is an input.
- `CG_INT_SRC_0` is taken as 0. `CG_SetSTBYReleaseINTSrc` compares `INTSource` with the literal 0
  at line 294, and the dispatcher passes `CG_INT_SRC_0 + index`. Its enumeration is not part of this model.
- NVIC IRQ numbers are the channel numbers: `obj->irq_id` is passed to the NVIC calls at lines 165,
  176, 241, 249, 250 and 256, and `CG_INT_SRC_0 + index` at lines 268, 286 and 288.

Disabling the only detected edge, or any edge from Invalid, yields Both in `gpio_irq_set`
(lines 212-225). No `gpio_irq_set` result is Invalid, so the pin-high branch at lines 236-237 is
dead. `ApplyPolicy` models that branch, and the contract of `Set` shows it is never taken.

The driver does not keep "an enabled channel has a registered handler". `gpio_irq_free` empties the
slot and disables the IRQ. A later `gpio_irq_set` or `gpio_irq_enable` on the same object enables
the IRQ again with a NULL slot, and the dispatcher calls the slot without a NULL check.
`Scenarios.SetAfterFreeEnablesEmptySlot` and `Scenarios.EnableAfterFreeEnablesEmptySlot` show
this. The precondition of `IrqHandler` requires a registered handler for a level that makes a call.

## Model

| member | source | states |
|---|---|---|
| Policy.Edges | targets/TARGET_TOSHIBA/TARGET_TMPM4KN/gpio_irq_api.c:191-228 | the edges each policy detects: none for Invalid, both for Both, and never IRQ_NONE |
| Policy.StateFor | targets/TARGET_TOSHIBA/TARGET_TMPM4KN/gpio_irq_api.c:191-228 | every set of real edges is the edge set of some policy (the inverse of Edges) |
| Policy.EdgesInjective | targets/TARGET_TOSHIBA/TARGET_TMPM4KN/gpio_irq_api.c:191-228 | two policies that detect the same edges are the same policy |
| Policy.AddEdge | targets/TARGET_TOSHIBA/TARGET_TMPM4KN/gpio_irq_api.c:191-209 | enabling Rise or Fall adds exactly that edge to the detected edges, so the result is never Invalid |
| Policy.RemoveEdge | targets/TARGET_TOSHIBA/TARGET_TMPM4KN/gpio_irq_api.c:210-228 | disabling an edge removes exactly that edge when another edge remains, and yields Both when none would remain; never Invalid |
| Policy.NextState | targets/TARGET_TOSHIBA/TARGET_TMPM4KN/gpio_irq_api.c:191-228 | the transition fails exactly for an edge other than Rise and Fall; otherwise the new policy is not Invalid and its edges are the old ones plus (enable) or minus (disable) the edge, or Both when none would remain |
| Policy.ReplayKeepsValid | targets/TARGET_TOSHIBA/TARGET_TMPM4KN/gpio_irq_api.c:186-244 | from a policy other than Invalid, no sequence of gpio_irq_set calls reaches Invalid |
| Policy.InitPolicyNeverInvalid | targets/TARGET_TOSHIBA/TARGET_TMPM4KN/gpio_irq_api.c:163 | after gpio_irq_init sets Both, no sequence of gpio_irq_set calls makes the policy Invalid |
| Policy.EnableBothEdgesCommutes | targets/TARGET_TOSHIBA/TARGET_TMPM4KN/gpio_irq_api.c:191-209 | enabling Rise and Fall in either order yields Both from every policy |
| Policy.EnableThenDisableRiseGivesBoth | targets/TARGET_TOSHIBA/TARGET_TMPM4KN/gpio_irq_api.c:191-218 | from any policy that does not detect Fall (Invalid or Rising), enabling and then disabling Rise gives Both, not Invalid |
| Registers.ControlRegister | targets/TARGET_TOSHIBA/TARGET_TMPM4KN/gpio_irq_api.c:291-330 | a source has a control byte exactly when it is 0..18 or 21, and that byte lies inside the IMC block |
| Registers.Address | targets/TARGET_TOSHIBA/TARGET_TMPM4KN/gpio_irq_api.c:291-330 | the byte index of a supported source lies inside the IMC block |
| Registers.ControlRegisterInjective | targets/TARGET_TOSHIBA/TARGET_TMPM4KN/gpio_irq_api.c:293-330 | different supported sources name different (register, offset) pairs |
| Registers.AddressIncreasing | targets/TARGET_TOSHIBA/TARGET_TMPM4KN/gpio_irq_api.c:293-330 | the byte address grows strictly with the source number |
| Registers.AddressInjective | targets/TARGET_TOSHIBA/TARGET_TMPM4KN/gpio_irq_api.c:293-330 | different supported sources write different control bytes |
| PinTable.LookupFindsFirst | targets/TARGET_TOSHIBA/TARGET_TMPM4KN/gpio_irq_api.c:146 | the pin lookup finds nothing exactly when no row names the pin, and otherwise returns the channel of the first row that does |
| PinTable.TableChannelsSupported | targets/TARGET_TOSHIBA/TARGET_TMPM4KN/gpio_irq_api.c:24-48 | every channel in PinMap_GPIO_IRQ is below CHANNEL_NUM and has a control register |
| PinTable.TableDistinct | targets/TARGET_TOSHIBA/TARGET_TMPM4KN/gpio_irq_api.c:29-48 | no pin and no channel appears twice in PinMap_GPIO_IRQ |
| PinTable.LookupSupported | targets/TARGET_TOSHIBA/TARGET_TMPM4KN/gpio_irq_api.c:146-159 | a channel found for a pin is a valid index into the channel table and has a control register |
| PinTable.LookupAt | targets/TARGET_TOSHIBA/TARGET_TMPM4KN/gpio_irq_api.c:29-48 | in a table with no repeated pin, looking up the pin of a row yields that row's channel |
| PinTable.StubsMatchTable | targets/TARGET_TOSHIBA/TARGET_TMPM4KN/gpio_irq_api.c:29-142 | the k-th vector stub passes the pin and channel of the k-th table row |
| PinTable.StubsAgreeWithLookup | targets/TARGET_TOSHIBA/TARGET_TMPM4KN/gpio_irq_api.c:59-142 | for every vector stub, gpio_irq_init's lookup of its pin yields the index that stub dispatches |
| GpioIrq.EdgeOfLevel | targets/TARGET_TOSHIBA/TARGET_TMPM4KN/gpio_irq_api.c:274-284 | a sampled level yields an edge exactly when it is 0 or 1, and that edge is the one after which the pin is at that level |
| GpioIrq.ReleaseWritesEffect | targets/TARGET_TOSHIBA/TARGET_TMPM4KN/gpio_irq_api.c:291-330 | applying the sequencer's stores to any IMC block changes exactly the source's control byte, which ends at state combined with NewState; the CLR_INT_FLAG store leaves no mark on the final bytes |
| GpioIrq.DispatchCalls | targets/TARGET_TOSHIBA/TARGET_TMPM4KN/gpio_irq_api.c:259-289 | one dispatch invokes the callback exactly as often as its sampled level calls for it (once or never) |
| GpioIrq.DispatchAddsCall | targets/TARGET_TOSHIBA/TARGET_TMPM4KN/gpio_irq_api.c:259-289 | after any history, a dispatch adds exactly its own callback invocation to the invocations so far |
| GpioIrq.InitMakesNoCalls | targets/TARGET_TOSHIBA/TARGET_TMPM4KN/gpio_irq_api.c:144-172 | the actions of gpio_irq_init add no callback invocation to any history |
| GpioIrq.SetMakesNoCalls | targets/TARGET_TOSHIBA/TARGET_TMPM4KN/gpio_irq_api.c:186-244 | the actions of a successful gpio_irq_set add no callback invocation to any history |
| GpioIrq.GpioIrqDriver.constructor | targets/TARGET_TOSHIBA/TARGET_TMPM4KN/gpio_irq_api.c:52-54 | at reset every handler slot is NULL, every id 0, and every IRQ disabled and not pending |
| GpioIrq.GpioIrqDriver.ClearPendingIrq | targets/TARGET_TOSHIBA/TARGET_TMPM4KN/gpio_irq_api.c:165 | clears the pending flag of one IRQ and no other |
| GpioIrq.GpioIrqDriver.WritePin | targets/TARGET_TOSHIBA/TARGET_TMPM4KN/gpio_irq_api.c:153 | sets the data bit of one pin and no other |
| GpioIrq.GpioIrqDriver.SetReleaseSource | targets/TARGET_TOSHIBA/TARGET_TMPM4KN/gpio_irq_api.c:291-335 | for a supported source, stores CLR_INT_FLAG and then state combined with NewState into its control byte; the byte ends at the combined value and no other byte changes |
| GpioIrq.GpioIrqDriver.Enable | targets/TARGET_TOSHIBA/TARGET_TMPM4KN/gpio_irq_api.c:246-251 | clears the IRQ's pending flag and then enables it; no other IRQ changes |
| GpioIrq.GpioIrqDriver.Disable | targets/TARGET_TOSHIBA/TARGET_TMPM4KN/gpio_irq_api.c:253-257 | disables the IRQ; no other IRQ changes |
| GpioIrq.GpioIrqDriver.StoreSlot | targets/TARGET_TOSHIBA/TARGET_TMPM4KN/gpio_irq_api.c:156-161 | stores a handler and an id in one slot of the channel table and no other, keeping NULL handlers paired with id 0 |
| GpioIrq.GpioIrqDriver.Bind | targets/TARGET_TOSHIBA/TARGET_TMPM4KN/gpio_irq_api.c:148-170 | binds the object to the pin and a known channel, drives the pin low, stores handler and id in that slot only, sets the policy to Both, clears pending and arms the byte with Both and ENABLE |
| GpioIrq.GpioIrqDriver.Init | targets/TARGET_TOSHIBA/TARGET_TMPM4KN/gpio_irq_api.c:144-172 | an unmapped pin stops with no effect; otherwise binds the object to the pin's channel, drives the pin low, stores handler and id in that slot only, sets the policy to Both, clears pending and arms the byte with Both and ENABLE, without enabling the IRQ or changing CurrentState |
| GpioIrq.GpioIrqDriver.Free | targets/TARGET_TOSHIBA/TARGET_TMPM4KN/gpio_irq_api.c:173-184 | clears pending, resets only the object's slot to NULL and 0, and leaves the IRQ disabled |
| GpioIrq.GpioIrqDriver.ApplyPolicy | targets/TARGET_TOSHIBA/TARGET_TMPM4KN/gpio_irq_api.c:231-243 | copies the policy to CurrentState; for a policy other than Invalid arms the channel byte with it and drives the pin low, for Invalid leaves the bytes alone and drives the pin high; then the IRQ ends not pending and enabled |
| GpioIrq.GpioIrqDriver.Set | targets/TARGET_TOSHIBA/TARGET_TMPM4KN/gpio_irq_api.c:186-244 | an unsupported edge stops after disabling the IRQ; otherwise the policy becomes NextState's result (never Invalid), CurrentState equals it, the channel byte ends at policy combined with ENABLE, the pin is driven low, and the IRQ ends not pending and enabled |
| GpioIrq.GpioIrqDriver.IrqHandler | targets/TARGET_TOSHIBA/TARGET_TMPM4KN/gpio_irq_api.c:259-289 | disarms with CurrentState and DISABLE, calls the channel's handler with its id once with IRQ_FALL for level 0 and IRQ_RISE for level 1 and never otherwise, clears pending, and re-arms with CurrentState and ENABLE; a handler must be registered when a call is made |
| GpioIrq.GpioIrqDriver.Vector | targets/TARGET_TOSHIBA/TARGET_TMPM4KN/gpio_irq_api.c:59-142 | each vector stub dispatches a supported channel, with the same effect as IrqHandler on it |
| Scenarios.InitThenFree | targets/TARGET_TOSHIBA/TARGET_TMPM4KN/gpio_irq_api.c:144-184 | for every mapped pin, init followed by free leaves the pin's channel unregistered, disabled and not pending, and every other slot as it was |
| Scenarios.SetAfterFreeEnablesEmptySlot | targets/TARGET_TOSHIBA/TARGET_TMPM4KN/gpio_irq_api.c:173-251 | init, free and then set on the same object leave the channel enabled with a NULL handler slot |
| Scenarios.EnableAfterFreeEnablesEmptySlot | targets/TARGET_TOSHIBA/TARGET_TMPM4KN/gpio_irq_api.c:173-251 | init, free and then enable on the same object leave the channel enabled with a NULL handler slot |
| Scenarios.ArmForRise | targets/TARGET_TOSHIBA/TARGET_TMPM4KN/gpio_irq_api.c:144-244 | on any mapped pin, init with (h, id) then set(Rise, enable) registers h and id on the pin's channel, makes the global state Both and makes no callback invocation |
| Scenarios.RiseDeliveredOnce | targets/TARGET_TOSHIBA/TARGET_TMPM4KN/gpio_irq_api.c:144-289 | on any mapped pin, after init with (h, id), set(Rise, enable) and a dispatch of the pin's channel that samples level 1, exactly one callback invocation h(id, IRQ_RISE) has been made, and the channel is re-armed with Both and not pending |
| Scenarios.SecondInitOverwrites | targets/TARGET_TOSHIBA/TARGET_TMPM4KN/gpio_irq_api.c:144-172 | for every mapped pin and any handlers and ids, a second init replaces the first's handler and id in the pin's slot and leaves every other slot as it was |
| Scenarios.RearmUsesGlobalState | targets/TARGET_TOSHIBA/TARGET_TMPM4KN/gpio_irq_api.c:259-289 | set stores each new policy in the single CurrentState (line 231); the dispatcher re-arms a channel with the policy last set on any channel, not with that channel's own policy |

## Left out

- Critical sections (`core_util_critical_section_enter`/`exit`) and interrupt preemption or
  nesting. Each public function and each dispatch is one atomic step.
- Real interrupt-controller behaviour. `NVIC_*` calls only update per-IRQ enable and pending flags.
  A pending flag is never set, and a disabled IRQ is not prevented from being dispatched.
- `gpio_read_bit` and `gpio_write_bit` internals. The sampled level is an input, and a write
  updates an abstract per-pin data bit.
- `pinmap_pinout`, which configures the pin function. It is not part of this model.
- `pinmap_peripheral` is modelled as a lookup of the literal table. Its not-found path (an
  `error()` inside the pin-map library) is the `Fail(UnmappedPin)` outcome of `Init`.
- Concrete memory-mapped addresses of `TSB_IB->IMCnnn`. The model assumes `IMCnnn` is byte `nnn`
  of one block.
- The numeric values of `CG_INTActiveState`. `ActiveState | NewState` is uninterpreted.
- The initial value of `CurrentState`, which depends on that encoding. It is a constructor argument.
- The dummy read-back of the control byte after the two stores. It matters only through the NULL
  `ptr`, which the precondition of `SetReleaseSource` excludes.
- The callback's own behaviour. A call is a recorded action (handler, id, edge).
- GpioIrq.GpioIrqDriver.IrqHandler: the re-arm at line 288 reads `CurrentState` again after the callback, so a callback
  that calls `gpio_irq_set` changes what is re-armed. The model assumes the callback changes no
  driver state and re-arms with the `CurrentState` of the dispatch's start.
- The pin-function field of the `PinMap_GPIO_IRQ` rows and the `{NC, NC}` terminator row.
- GpioIrq.GpioIrqDriver.Init: a NULL handler is not distinguished from any other handler value at init.
