/**
 * What the trigger code promises, stated over the specification functions of
 * module Tsl2540Trigger (which the Driver methods are proved to follow).
 * Effect logs are compared through Keep projections, so "exactly once" and
 * "A before B" are equations on short sequences.
 */
module TriggerProperties {
  import opened Sensor
  import opened Effects
  import opened StatusBits
  import opened PinMask
  import opened Tsl2540Trigger

  // ---------------------------------------------------------------------------
  // tsl2540_gpio_callback
  // ---------------------------------------------------------------------------

  /**
   * The GPIO callback hands off exactly once when the interrupt pin is among
   * the pins the port reports, and does nothing at all otherwise.
   */
  lemma GpioCallbackHandsOffIffPinFired(intPin: Pin, fired: seq<Pin>)
    ensures intPin in fired ==> GpioCallbackEffects(intPin, MaskOf(fired)) == [Handoff]
    ensures intPin !in fired ==> GpioCallbackEffects(intPin, MaskOf(fired)) == []
  {
    PinSelectedIffListed(fired, intPin);
  }

  // ---------------------------------------------------------------------------
  // tsl2540_handle_int
  // ---------------------------------------------------------------------------

  /** Every pass starts by reading STATUS, and reads it exactly once. */
  lemma HandleIntReadsStatusOnce(h: Option<Handler>, readRet: int, status: bv8)
    ensures var e := HandleIntEffects(h, readRet, status);
            e[0] == ReadReg(RegStatus) && Keep(e, {KRead}) == [ReadReg(RegStatus)]
  {
    var e := HandleIntEffects(h, readRet, status);
    KeepAppend([ReadReg(RegStatus)], e[1..], {KRead});
    assert e == [ReadReg(RegStatus)] + e[1..];
    KeepNone(e[1..], {KRead});
  }

  /** A failed STATUS read neither notifies the application nor writes a register. */
  lemma HandleIntReadFailure(h: Option<Handler>, readRet: int, status: bv8)
    requires readRet != 0
    ensures Keep(HandleIntEffects(h, readRet, status), Visible) == []
  {
  }

  /**
   * With AINT clear the pass neither notifies nor writes, and what it does is
   * the same whatever the other bits (ASAT, CINT, ...) of the snapshot are.
   */
  lemma HandleIntAintClear(h: Option<Handler>, status: bv8, other: bv8)
    requires !Aint(status) && !Aint(other)
    ensures Keep(HandleIntEffects(h, 0, status), Visible) == []
    ensures HandleIntEffects(h, 0, status) == HandleIntEffects(h, 0, other)
  {
  }

  /**
   * With AINT set and a handler registered, the handler is called exactly once
   * with {THRESHOLD, LIGHT}, and after that the unchanged snapshot is written
   * back to STATUS exactly once.
   */
  lemma HandleIntAintWithHandler(g: Handler, status: bv8)
    requires Aint(status)
    ensures Keep(HandleIntEffects(Some(g), 0, status), Visible)
         == [InvokeHandler(g, ThresholdLight), WriteReg(RegStatus, status)]
  {
    var tail := [InvokeHandler(g, ThresholdLight), WriteReg(RegStatus, status)];
    KeepAppend([ReadReg(RegStatus)], tail, Visible);
  }

  /** With AINT set and no handler, the snapshot is still written back exactly once. */
  lemma HandleIntAintWithoutHandler(status: bv8)
    requires Aint(status)
    ensures Keep(HandleIntEffects(None, 0, status), Visible) == [WriteReg(RegStatus, status)]
  {
  }

  /**
   * Both directions: the handler is called exactly when the read succeeded,
   * AINT is set and a handler is registered; STATUS is written exactly when the
   * read succeeded and AINT is set.
   */
  lemma HandleIntNotifiesIff(h: Option<Handler>, readRet: int, status: bv8)
    ensures var e := HandleIntEffects(h, readRet, status);
            (Keep(e, {KInvoke}) != [] <==> readRet == 0 && Aint(status) && h.Some?)
            && (Keep(e, {KWrite}) != [] <==> readRet == 0 && Aint(status))
  {
    var e := HandleIntEffects(h, readRet, status);
    if readRet == 0 && Aint(status) {
      if h.Some? {
        HandleIntAintWithHandler(h.value, status);
      } else {
        HandleIntAintWithoutHandler(status);
      }
      KeepKeep(e, Visible, {KInvoke});
      KeepKeep(e, Visible, {KWrite});
    }
  }

  /** The worked cases 0x10 (AINT), 0x18 (AINT and CINT) and 0x80 (ASAT only). */
  lemma HandleIntExamples(g: Handler)
    ensures Keep(HandleIntEffects(Some(g), 0, 0x10), Visible)
         == [InvokeHandler(g, ThresholdLight), WriteReg(RegStatus, 0x10)]
    ensures Keep(HandleIntEffects(Some(g), 0, 0x18), Visible)
         == [InvokeHandler(g, ThresholdLight), WriteReg(RegStatus, 0x18)]
    ensures Decode(0x18) == StatusFlags(false, true, true)
    ensures Keep(HandleIntEffects(Some(g), 0, 0x80), Visible) == []
  {
    HandleIntAintWithHandler(g, 0x10);
    HandleIntAintWithHandler(g, 0x18);
  }

  // ---------------------------------------------------------------------------
  // tsl2540_trigger_set
  // ---------------------------------------------------------------------------

  /** A channel other than LIGHT is refused with -ENOTSUP before any I/O; the slot is kept. */
  lemma TriggerSetUnsupportedChannel(current: Option<Handler>, trig: SensorTrigger, h: Option<Handler>,
                                     intenabRet: int, cfg3Ret: int)
    requires trig.chan != ChanLight
    ensures var r := TriggerSetSpec(current, trig, h, intenabRet, cfg3Ret);
            r.ret == -ENOTSUP && r.effects == [] && r.handler == current
  {
  }

  /** On LIGHT, a type other than THRESHOLD is refused with -ENOTSUP before any I/O; the slot is kept. */
  lemma TriggerSetUnsupportedType(current: Option<Handler>, trig: SensorTrigger, h: Option<Handler>,
                                  intenabRet: int, cfg3Ret: int)
    requires trig.chan == ChanLight && trig.kind != TrigThreshold
    ensures var r := TriggerSetSpec(current, trig, h, intenabRet, cfg3Ret);
            r.ret == -ENOTSUP && r.effects == [] && r.handler == current
  {
  }

  /** A failed INTENAB update is returned as is, CFG3 is not touched, the slot is kept. */
  lemma TriggerSetIntenabFailure(current: Option<Handler>, h: Option<Handler>, intenabRet: int, cfg3Ret: int)
    requires intenabRet != 0
    ensures var r := TriggerSetSpec(current, ThresholdLight, h, intenabRet, cfg3Ret);
            r.ret == intenabRet && r.handler == current
            && Keep(r.effects, {KUpdate}) == [UpdateReg(RegIntenab)]
  {
  }

  /** A failed CFG3 update (after INTENAB succeeded) is returned as is; the slot is kept. */
  lemma TriggerSetCfg3Failure(current: Option<Handler>, h: Option<Handler>, cfg3Ret: int)
    requires cfg3Ret != 0
    ensures var r := TriggerSetSpec(current, ThresholdLight, h, 0, cfg3Ret);
            r.ret == cfg3Ret && r.handler == current
            && Keep(r.effects, {KUpdate}) == [UpdateReg(RegIntenab), UpdateReg(RegCfg3)]
  {
  }

  /**
   * trigger_set returns 0 exactly when the trigger is {THRESHOLD, LIGHT} and
   * both register updates return 0; then the slot holds exactly the argument
   * (None unsubscribes), and otherwise it keeps its previous content. It never
   * calls the handler, writes STATUS or touches the GPIO.
   */
  lemma TriggerSetSucceedsIff(current: Option<Handler>, trig: SensorTrigger, h: Option<Handler>,
                              intenabRet: int, cfg3Ret: int)
    ensures var r := TriggerSetSpec(current, trig, h, intenabRet, cfg3Ret);
            (r.ret == 0 <==> trig == ThresholdLight && intenabRet == 0 && cfg3Ret == 0)
            && r.handler == (if r.ret == 0 then h else current)
            && Keep(r.effects, {KUpdate}) == r.effects
  {
  }

  /**
   * A registration that fails keeps the earlier one in force: after A was
   * registered, a failing attempt to register B leaves A to be called on the
   * next AINT interrupt.
   */
  lemma FailedReplaceKeepsSubscription(current: Option<Handler>, a: Handler, b: Option<Handler>,
                                       trig: SensorTrigger, intenabRet: int, cfg3Ret: int, status: bv8)
    requires Aint(status)
    requires TriggerSetSpec(TriggerSetSpec(current, ThresholdLight, Some(a), 0, 0).handler,
                            trig, b, intenabRet, cfg3Ret).ret != 0
    ensures var first := TriggerSetSpec(current, ThresholdLight, Some(a), 0, 0);
            var second := TriggerSetSpec(first.handler, trig, b, intenabRet, cfg3Ret);
            Keep(HandleIntEffects(second.handler, 0, status), {KInvoke}) == [InvokeHandler(a, ThresholdLight)]
  {
    var first := TriggerSetSpec(current, ThresholdLight, Some(a), 0, 0);
    var second := TriggerSetSpec(first.handler, trig, b, intenabRet, cfg3Ret);
    TriggerSetSucceedsIff(first.handler, trig, b, intenabRet, cfg3Ret);
    HandleIntAintWithHandler(a, status);
    KeepKeep(HandleIntEffects(second.handler, 0, status), Visible, {KInvoke});
  }

  /** Registering None unsubscribes: no later interrupt pass calls any handler. */
  lemma UnsubscribeSilences(current: Option<Handler>, readRet: int, status: bv8)
    ensures var r := TriggerSetSpec(current, ThresholdLight, None, 0, 0);
            r.ret == 0 && Keep(HandleIntEffects(r.handler, readRet, status), {KInvoke}) == []
  {
    HandleIntNotifiesIff(None, readRet, status);
  }

  /** Of two successful registrations the later one wins, whatever was there before. */
  lemma LastRegistrationWins(current: Option<Handler>, a: Option<Handler>, b: Option<Handler>)
    ensures TriggerSetSpec(TriggerSetSpec(current, ThresholdLight, a, 0, 0).handler,
                           ThresholdLight, b, 0, 0).handler == b
  {
  }

  // ---------------------------------------------------------------------------
  // tsl2540_trigger_init
  // ---------------------------------------------------------------------------

  /** The kinds of effect that touch the GPIO pin or its callback. */
  const GpioSetup: set<EffectKind> := {KConfigurePin, KAddCallback, KConfigureInterrupt, KGetPin}

  /** An unready GPIO controller fails init with -ENODEV before any GPIO call. */
  lemma TriggerInitNotReady(intPin: Pin, addCallbackRet: int, pinLevel: int)
    ensures var r := TriggerInitSpec(intPin, false, addCallbackRet, pinLevel);
            r.ret == -ENODEV && Keep(r.effects, GpioSetup + {KHandoff}) == []
  {
  }

  /** A failed callback registration fails init with -EIO before the interrupt is armed. */
  lemma TriggerInitAddCallbackFailure(intPin: Pin, addCallbackRet: int, pinLevel: int)
    requires addCallbackRet < 0
    ensures var r := TriggerInitSpec(intPin, true, addCallbackRet, pinLevel);
            r.ret == -EIO && Keep(r.effects, {KConfigureInterrupt, KGetPin, KHandoff}) == []
  {
    var r := TriggerInitSpec(intPin, true, addCallbackRet, pinLevel);
    KeepNone(r.effects, {KConfigureInterrupt, KGetPin, KHandoff});
  }

  /**
   * Otherwise init succeeds, and in this order: checks the controller,
   * registers the callback for BIT(pin), arms the interrupt, samples the pin,
   * and hands off exactly once if the pin was already active.
   */
  lemma TriggerInitSuccess(intPin: Pin, addCallbackRet: int, pinLevel: int)
    requires addCallbackRet >= 0
    ensures var r := TriggerInitSpec(intPin, true, addCallbackRet, pinLevel);
            r.ret == 0
            && Keep(r.effects, {KCheckReady, KAddCallback, KConfigureInterrupt, KGetPin, KHandoff})
               == [CheckGpioReady, AddCallback(Bit(intPin)), ConfigureInterrupt, GetPin]
                  + (if pinLevel > 0 then [Handoff] else [])
  {
    var kinds := {KCheckReady, KAddCallback, KConfigureInterrupt, KGetPin, KHandoff};
    var m := Bit(intPin);
    var armed := [CheckGpioReady, ConfigurePinInput, AddCallback(m), ConfigureInterrupt, GetPin];
    var late := if pinLevel > 0 then [Handoff] else [];
    assert TriggerInitSpec(intPin, true, addCallbackRet, pinLevel).effects == armed + late;
    KeepAppend(armed, late, kinds);
    ArmingOrder(m, kinds);
  }

  lemma ArmingOrder(m: bv32, kinds: set<EffectKind>)
    requires kinds == {KCheckReady, KAddCallback, KConfigureInterrupt, KGetPin, KHandoff}
    ensures Keep([CheckGpioReady, ConfigurePinInput, AddCallback(m), ConfigureInterrupt, GetPin], kinds)
         == [CheckGpioReady, AddCallback(m), ConfigureInterrupt, GetPin]
  {
    var tail := [ConfigurePinInput, AddCallback(m), ConfigureInterrupt, GetPin];
    assert Keep(tail, kinds) == [AddCallback(m), ConfigureInterrupt, GetPin] by {
      KeepCons(ConfigurePinInput, tail[1..], kinds);
      KeepCons(AddCallback(m), tail[2..], kinds);
      KeepCons(ConfigureInterrupt, tail[3..], kinds);
      KeepCons(GetPin, [], kinds);
    }
    KeepCons(CheckGpioReady, tail, kinds);
  }

  /** init returns 0, -ENODEV or -EIO, and 0 exactly when both checked steps succeed. */
  lemma TriggerInitReturnCodes(intPin: Pin, gpioReady: bool, addCallbackRet: int, pinLevel: int)
    ensures var r := TriggerInitSpec(intPin, gpioReady, addCallbackRet, pinLevel);
            r.ret in {0, -ENODEV, -EIO}
            && (r.ret == 0 <==> gpioReady && addCallbackRet >= 0)
  {
  }

  /**
   * The callback init registers is one its own pin filter accepts: reporting
   * the registered mask makes the GPIO callback hand off.
   */
  lemma TriggerInitRegistersOwnPin(intPin: Pin, addCallbackRet: int, pinLevel: int)
    ensures var r := TriggerInitSpec(intPin, true, addCallbackRet, pinLevel);
            exists m :: AddCallback(m) in r.effects && GpioCallbackEffects(intPin, m) == [Handoff]
  {
    var r := TriggerInitSpec(intPin, true, addCallbackRet, pinLevel);
    SinglePinSelected(intPin, intPin);
    assert r.effects[2] == AddCallback(Bit(intPin));
  }
}
