# TSL2540 trigger handling, modelled in Dafny

This project models the interrupt and trigger logic of the Zephyr driver for the
TSL2540 ambient light sensor (`drivers/sensor/tsl2540/tsl2540_trigger.c`):

- the GPIO callback that filters on the interrupt pin and hands off to the
  deferred context (`tsl2540_gpio_callback`, `tsl2540_handle_cb`);
- the deferred pass that reads the STATUS register, decodes ASAT (bit 7),
  AINT (bit 4) and CINT (bit 3), calls the application handler and writes the
  status byte back (`tsl2540_handle_int`);
- trigger registration with its two register updates and the single handler
  slot (`tsl2540_trigger_set`);
- trigger initialisation with its fixed order of checks and GPIO calls
  (`tsl2540_trigger_init`).

Layout:

- `sensor.dfy` (module `Sensor`): trigger descriptors, handlers, device handles
  and errno values.
- `effects.dfy` (module `Effects`): the log of foreign calls the driver makes.
  `Keep` projects a log onto some kinds of call, so "exactly once" and
  "A before B" become equations on short sequences.
- `status_bits.dfy` (module `StatusBits`): the STATUS bit tests, checked against
  an arithmetic definition of "bit k is set". Also a typed flag set with an
  encode/decode round trip.
- `pin_mask.dfy` (module `PinMask`): `BIT(pin)` and the GPIO callback's pin filter.
- `trigger.dfy` (module `Tsl2540Trigger`): for each operation, a specification
  function that gives the return code, the new handler slot and the effects, in
  terms of the driver state and the results of the foreign calls. Also the
  `Driver` class (the `struct tsl2540_data` instance). Its methods update the
  fields in place, append to the log, and are proved to agree with the
  specification functions.
- `trigger_properties.dfy` (module `TriggerProperties`): what the code promises,
  proved about the specification functions. This includes multi-call facts: a
  failed re-registration keeps the old handler, a NULL handler unsubscribes, and
  init registers a callback that its own pin filter accepts.

The results of I2C, GPIO and readiness calls are parameters of the methods.
Every call the driver makes is recorded in the `log` field in order,
including calls whose result is ignored.

The errno constants use the values from Zephyr's C library (`EIO` 5, `ENODEV`
19, `ENOTSUP` 134). The proofs only need them to be positive and distinct.

`trigger_set` does not turn a failed register update into `-EIO`. It returns
whatever `i2c_reg_update_byte_dt` returned (`tsl2540_trigger.c:110-118`), and
so does the model.

## Model

| member | source | states |
|---|---|---|
| `Tsl2540Trigger.Driver.HandleCb` | drivers/sensor/tsl2540/tsl2540_trigger.c:13-20 | the hand-off appends exactly one `Handoff` to the log and changes nothing else |
| `Tsl2540Trigger.Driver.GpioCallback` | drivers/sensor/tsl2540/tsl2540_trigger.c:22-33 | the log grows by exactly `GpioCallbackEffects(config.intPin, pinMask)`: a hand-off only when the reported mask passes the pin filter. The handler slot and other fields are untouched |
| `Tsl2540Trigger.Driver.HandleInt` | drivers/sensor/tsl2540/tsl2540_trigger.c:35-78 | the log grows by exactly `HandleIntEffects(handler, readRet, status)` and the handler slot is unchanged. This is the pass that the `TriggerProperties.HandleInt*` lemmas characterise |
| `Tsl2540Trigger.Driver.TriggerSet` | drivers/sensor/tsl2540/tsl2540_trigger.c:99-140 | the return code, the new handler slot and the appended calls are those of `TriggerSetSpec` on the old slot. `dev`, `workReady` and `config` are unchanged |
| `Tsl2540Trigger.Driver.TriggerInit` | drivers/sensor/tsl2540/tsl2540_trigger.c:142-198 | `dev` is the given device and the work handler is installed, whatever the outcome. The return code and appended calls are those of `TriggerInitSpec`, and the handler slot is unchanged |
| `StatusBits.Asat` | drivers/sensor/tsl2540/tsl2540_trigger.c:44 | the ASAT test `(1 << 7) & status` holds exactly when bit 7 of the byte is set, as an arithmetic fact about the byte's value |
| `StatusBits.Cint` | drivers/sensor/tsl2540/tsl2540_trigger.c:54 | the CINT test `(1 << 3) & status` holds exactly when bit 3 is set |
| `StatusBits.Aint` | drivers/sensor/tsl2540/tsl2540_trigger.c:57 | the AINT test `(1 << 4) & status` holds exactly when bit 4 is set |
| `StatusBits.Encode` | drivers/sensor/tsl2540/tsl2540_trigger.c:44-57 | every combination of the three flags is carried by some status byte, and decoding that byte gives the flags back |
| `StatusBits.DecodeKnownBitsOnly` | drivers/sensor/tsl2540/tsl2540_trigger.c:44-57 | decoding looks at bits 7, 4 and 3 only. Re-encoding the decoded flags gives `status & 0x98` |
| `PinMask.SinglePinSelected` | drivers/sensor/tsl2540/tsl2540_trigger.c:28 | the filter accepts a one-pin mask `BIT(p)` exactly when `p` is the interrupt pin |
| `PinMask.PinSelectedIffListed` | drivers/sensor/tsl2540/tsl2540_trigger.c:28 | the filter accepts a port mask exactly when the interrupt pin is among the pins the mask reports |
| `TriggerProperties.GpioCallbackHandsOffIffPinFired` | drivers/sensor/tsl2540/tsl2540_trigger.c:28-32 | the GPIO callback hands off exactly once if the interrupt pin fired, and otherwise does nothing at all |
| `TriggerProperties.HandleIntReadsStatusOnce` | drivers/sensor/tsl2540/tsl2540_trigger.c:40 | every pass first reads STATUS, and reads it exactly once |
| `TriggerProperties.HandleIntReadFailure` | drivers/sensor/tsl2540/tsl2540_trigger.c:40-42 | after a failed read, no handler is called and no register is written |
| `TriggerProperties.HandleIntAintClear` | drivers/sensor/tsl2540/tsl2540_trigger.c:44-57 | with AINT clear, nothing is called or written. What the pass does does not depend on ASAT, CINT or any other bit |
| `TriggerProperties.HandleIntAintWithHandler` | drivers/sensor/tsl2540/tsl2540_trigger.c:57-76 | with AINT set and a handler registered: exactly one call of that handler with {THRESHOLD, LIGHT}. After it, exactly one write of the unchanged status byte to STATUS |
| `TriggerProperties.HandleIntAintWithoutHandler` | drivers/sensor/tsl2540/tsl2540_trigger.c:57-76 | with AINT set and no handler: no call, and still exactly one write of the status byte to STATUS |
| `TriggerProperties.HandleIntNotifiesIff` | drivers/sensor/tsl2540/tsl2540_trigger.c:40-76 | both directions: the handler is called exactly when the read succeeded, AINT is set and a handler is registered. STATUS is written exactly when the read succeeded and AINT is set |
| `TriggerProperties.HandleIntExamples` | drivers/sensor/tsl2540/tsl2540_trigger.c:44-76 | 0x10 and 0x18 each call the handler and then write back that same byte. 0x18 carries both AINT and CINT. 0x80 (ASAT only) calls and writes nothing |
| `TriggerProperties.TriggerSetUnsupportedChannel` | drivers/sensor/tsl2540/tsl2540_trigger.c:104-137 | a channel other than LIGHT gives `-ENOTSUP`, with no register update and the handler slot unchanged |
| `TriggerProperties.TriggerSetUnsupportedType` | drivers/sensor/tsl2540/tsl2540_trigger.c:129-132 | on LIGHT, a trigger type other than THRESHOLD gives `-ENOTSUP`, with no register update and the handler slot unchanged |
| `TriggerProperties.TriggerSetIntenabFailure` | drivers/sensor/tsl2540/tsl2540_trigger.c:110-113 | a failing INTENAB update returns its own code. CFG3 is not attempted and the slot is unchanged |
| `TriggerProperties.TriggerSetCfg3Failure` | drivers/sensor/tsl2540/tsl2540_trigger.c:115-118 | after INTENAB succeeds, a failing CFG3 update returns its own code and the slot is unchanged |
| `TriggerProperties.TriggerSetSucceedsIff` | drivers/sensor/tsl2540/tsl2540_trigger.c:104-139 | returns 0 exactly for {THRESHOLD, LIGHT} when both updates return 0. The slot then holds exactly the argument, including NULL; otherwise it keeps its old value. Register updates are the only calls made |
| `TriggerProperties.FailedReplaceKeepsSubscription` | drivers/sensor/tsl2540/tsl2540_trigger.c:110-124 | register A, then make a registration of B that fails. The next AINT pass calls A exactly once |
| `TriggerProperties.UnsubscribeSilences` | drivers/sensor/tsl2540/tsl2540_trigger.c:123 | a successful registration of NULL means no later pass calls any handler |
| `TriggerProperties.LastRegistrationWins` | drivers/sensor/tsl2540/tsl2540_trigger.c:123 | after two successful registrations, the slot holds the second handler, whatever it held before |
| `TriggerProperties.TriggerInitNotReady` | drivers/sensor/tsl2540/tsl2540_trigger.c:160-163 | an unready GPIO controller gives `-ENODEV`. There is no pin configuration, callback registration, interrupt set-up, pin read or hand-off |
| `TriggerProperties.TriggerInitAddCallbackFailure` | drivers/sensor/tsl2540/tsl2540_trigger.c:169-172 | a negative `gpio_add_callback` result gives `-EIO`. The interrupt is not configured, the pin is not read and there is no hand-off |
| `TriggerProperties.TriggerInitSuccess` | drivers/sensor/tsl2540/tsl2540_trigger.c:160-197 | otherwise init returns 0. The order is: ready check, registration for `BIT(pin)`, interrupt set-up, pin read. A hand-off follows exactly once if the pin read is greater than 0 |
| `TriggerProperties.TriggerInitReturnCodes` | drivers/sensor/tsl2540/tsl2540_trigger.c:160-197 | init returns only 0, `-ENODEV` or `-EIO`. It returns 0 exactly when the controller is ready and the callback registration did not fail |
| `TriggerProperties.TriggerInitRegistersOwnPin` | drivers/sensor/tsl2540/tsl2540_trigger.c:167-169 | the callback mask that init registers passes the callback's own pin filter (line 28), so reporting it causes a hand-off |

## Left out

- Worker thread and semaphores (`tsl2540_thread_main`, `k_sem_*`, `k_thread_create`, lines 15-19, 81-87, 149-154): they exist for concurrency. Both hand-off variants are a single `Handoff` effect, and the own-thread set-up in init is not modelled.
- Work-queue handler (lines 91-96): it only routes to `tsl2540_handle_int`. Init installing it (line 156) is the `workReady` field; the model follows the global-thread build for that step.
- Mutex around the handler assignment (lines 122-124): in a sequential model the assignment is atomic. Handler calls running at the same time as a registration are not modelled.
- Interrupt trigger modes (lines 174-191): there is one `ConfigureInterrupt` effect, standing for the active build's `GPIO_INT_EDGE_BOTH`. The two other compile-time variants are not modelled.
- `LOG_*` calls: these are diagnostics only. So the ASAT and CINT branches have no effect in the model.
- Ignored return values: `tsl2540_reg_write` (line 75), `gpio_pin_configure_dt` (line 165) and `gpio_pin_interrupt_configure_dt` (line 185). The code ignores them, so they are not inputs of the model.
- Register contents: there is no register file. The bodies of `tsl2540_reg_read`/`tsl2540_reg_write`, the read-modify-write inside `i2c_reg_update_byte_dt`, and write-1-to-clear on STATUS are outside this file. Their results are inputs. `TSL2540_INTENAB_MASK`/`CONF` and `TSL2540_CFG3_MASK`/`CONF` come from tsl2540.h, which is not part of this model, so an `UpdateReg` effect names only the register.
- `gpio_init_callback` (line 167): it is seen only through the mask passed to the `AddCallback` effect. The GPIO subsystem's own dispatch by that mask is not part of this model.
- Handler arguments: an `InvokeHandler` effect records the handler and the trigger descriptor, not the `dev` pointer. Whatever the application handler does (including calling back into the driver) is not modelled.
- Pin numbers: `Pin` is an 8-bit value below 32, because `BIT(pin)` must fit the 32-bit `pin_mask`. Larger pins would be undefined behaviour in C.
- Driver data set-up: the constructor starts from a zeroed instance. The struct is defined in tsl2540.h, which is not part of this model.
