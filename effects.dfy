/**
 * The observable behaviour of the trigger code: every call it makes into the
 * I2C register layer, the GPIO subsystem, the deferred-execution mechanism and
 * the application, recorded in the order it makes them.
 */
module Effects {
  import opened Sensor

  /** The peripheral registers the trigger code touches (addresses from tsl2540.h). */
  datatype Reg = RegStatus | RegIntenab | RegCfg3

  datatype Effect =
    | ReadReg(reg: Reg)                                  // tsl2540_reg_read
    | WriteReg(reg: Reg, value: bv8)                     // tsl2540_reg_write
    | UpdateReg(reg: Reg)                                // i2c_reg_update_byte_dt with the register's MASK and CONF
    | InvokeHandler(handler: Handler, trig: SensorTrigger) // call of the application handler
    | Handoff                                            // tsl2540_handle_cb: wake the deferred context
    | CheckGpioReady                                     // device_is_ready on the GPIO controller
    | ConfigurePinInput                                  // gpio_pin_configure_dt(GPIO_INPUT)
    | AddCallback(pinMask: bv32)                         // gpio_add_callback of a callback for pinMask
    | ConfigureInterrupt                                 // gpio_pin_interrupt_configure_dt
    | GetPin                                             // gpio_pin_get_dt
  {
    function Kind(): EffectKind {
      match this
      case ReadReg(_) => KRead
      case WriteReg(_, _) => KWrite
      case UpdateReg(_) => KUpdate
      case InvokeHandler(_, _) => KInvoke
      case Handoff => KHandoff
      case CheckGpioReady => KCheckReady
      case ConfigurePinInput => KConfigurePin
      case AddCallback(_) => KAddCallback
      case ConfigureInterrupt => KConfigureInterrupt
      case GetPin => KGetPin
    }
  }

  datatype EffectKind =
    | KRead | KWrite | KUpdate | KInvoke | KHandoff
    | KCheckReady | KConfigurePin | KAddCallback | KConfigureInterrupt | KGetPin

  /**
   * The subsequence of `log` made of the effects whose kind is in `kinds`, in
   * their original order. "Exactly once" and "A before B" are both stated as
   * equations on such projections.
   */
  function Keep(log: seq<Effect>, kinds: set<EffectKind>): (r: seq<Effect>)
    ensures |r| <= |log|
    ensures forall i :: 0 <= i < |r| ==> r[i].Kind() in kinds
  {
    if log == [] then []
    else (if log[0].Kind() in kinds then [log[0]] else []) + Keep(log[1..], kinds)
  }

  /** Projecting a log with a first effect `x`: `x` is kept exactly when its kind is. */
  lemma KeepCons(x: Effect, rest: seq<Effect>, kinds: set<EffectKind>)
    ensures Keep([x] + rest, kinds) == (if x.Kind() in kinds then [x] else []) + Keep(rest, kinds)
  {
    assert ([x] + rest)[1..] == rest;
  }

  /** Projection distributes over concatenation of logs. */
  lemma {:induction false} KeepAppend(a: seq<Effect>, b: seq<Effect>, kinds: set<EffectKind>)
    ensures Keep(a + b, kinds) == Keep(a, kinds) + Keep(b, kinds)
    decreases |a|
  {
    if a == [] {
      assert a + b == b;
    } else {
      assert (a + b)[1..] == a[1..] + b;
      KeepAppend(a[1..], b, kinds);
    }
  }

  /** Projecting onto fewer kinds after projecting onto more is projecting once. */
  lemma {:induction false} KeepKeep(log: seq<Effect>, outer: set<EffectKind>, inner: set<EffectKind>)
    requires inner <= outer
    ensures Keep(Keep(log, outer), inner) == Keep(log, inner)
    decreases |log|
  {
    if log != [] {
      KeepKeep(log[1..], outer, inner);
      var head := if log[0].Kind() in outer then [log[0]] else [];
      KeepAppend(head, Keep(log[1..], outer), inner);
    }
  }

  /** A log none of whose effects has a kind in `kinds` projects to nothing. */
  lemma {:induction false} KeepNone(log: seq<Effect>, kinds: set<EffectKind>)
    requires forall i :: 0 <= i < |log| ==> log[i].Kind() !in kinds
    ensures Keep(log, kinds) == []
    decreases |log|
  {
    if log != [] {
      KeepNone(log[1..], kinds);
    }
  }
}
