/**
 * The trigger half of the TSL2540 ambient light sensor driver
 * (drivers/sensor/tsl2540/tsl2540_trigger.c): the GPIO interrupt callback,
 * the deferred status-register pass, trigger registration and trigger
 * initialisation.
 *
 * Each operation is given twice: as a function from the driver state and the
 * results of the foreign calls it makes to its return code, new state and
 * effect log (the specification, about which the lemmas below speak), and as a
 * method of the `Driver` class that performs the same steps on the fields in
 * place and is proved to agree with the function.
 */
module Tsl2540Trigger {
  import opened Sensor
  import opened Effects
  import opened StatusBits
  import opened PinMask

  /** The part of struct tsl2540_config the trigger code reads: the interrupt pin. */
  datatype Config = Config(intPin: Pin)

  // ---------------------------------------------------------------------------
  // tsl2540_gpio_callback
  // ---------------------------------------------------------------------------

  /** What the GPIO callback does when the port reports the pins in `pinMask`. */
  function GpioCallbackEffects(intPin: Pin, pinMask: bv32): seq<Effect> {
    if !PinSelected(pinMask, intPin) then [] else [Handoff]
  }

  // ---------------------------------------------------------------------------
  // tsl2540_handle_int
  // ---------------------------------------------------------------------------

  /**
   * One deferred pass over the STATUS register. `readRet` is what
   * tsl2540_reg_read returned and `status` the byte it read. ASAT and CINT are
   * only logged, so they contribute no effect.
   */
  function HandleIntEffects(handler: Option<Handler>, readRet: int, status: bv8): seq<Effect> {
    [ReadReg(RegStatus)] +
    if readRet != 0 then []
    else if !Aint(status) then []
    else (if handler.Some? then [InvokeHandler(handler.value, ThresholdLight)] else [])
         + [WriteReg(RegStatus, status)]
  }

  /** The effects that reach the application or the peripheral's registers. */
  const Visible: set<EffectKind> := {KInvoke, KWrite}

  // ---------------------------------------------------------------------------
  // tsl2540_trigger_set
  // ---------------------------------------------------------------------------

  /** Return code, handler slot afterwards, and calls made by one trigger_set. */
  datatype SetResult = SetResult(ret: int, handler: Option<Handler>, effects: seq<Effect>)

  /**
   * trigger_set on a driver whose handler slot holds `current`. `intenabRet` and
   * `cfg3Ret` are what the two i2c_reg_update_byte_dt calls return if made.
   */
  function TriggerSetSpec(current: Option<Handler>, trig: SensorTrigger, handler: Option<Handler>,
                          intenabRet: int, cfg3Ret: int): SetResult
  {
    if trig.chan != ChanLight then SetResult(-ENOTSUP, current, [])
    else if trig.kind != TrigThreshold then SetResult(-ENOTSUP, current, [])
    else if intenabRet != 0 then SetResult(intenabRet, current, [UpdateReg(RegIntenab)])
    else if cfg3Ret != 0 then SetResult(cfg3Ret, current, [UpdateReg(RegIntenab), UpdateReg(RegCfg3)])
    else SetResult(0, handler, [UpdateReg(RegIntenab), UpdateReg(RegCfg3)])
  }

  // ---------------------------------------------------------------------------
  // tsl2540_trigger_init
  // ---------------------------------------------------------------------------

  /** Return code and calls made by trigger_init. */
  datatype InitResult = InitResult(ret: int, effects: seq<Effect>)

  /**
   * trigger_init for interrupt pin `intPin`. `gpioReady` is what device_is_ready
   * says of the GPIO controller, `addCallbackRet` what gpio_add_callback returns
   * and `pinLevel` what gpio_pin_get_dt returns once the interrupt is armed.
   */
  function TriggerInitSpec(intPin: Pin, gpioReady: bool, addCallbackRet: int, pinLevel: int): InitResult {
    var registered := [CheckGpioReady, ConfigurePinInput, AddCallback(Bit(intPin))];
    if !gpioReady then InitResult(-ENODEV, [CheckGpioReady])
    else if addCallbackRet < 0 then InitResult(-EIO, registered)
    else InitResult(0, registered + [ConfigureInterrupt, GetPin] + if pinLevel > 0 then [Handoff] else [])
  }

  // ---------------------------------------------------------------------------
  // The driver instance (struct tsl2540_data) and its operations
  // ---------------------------------------------------------------------------

  class Driver {
    const config: Config
    var dev: Option<Device>        // data->dev, the back-reference set by init
    var workReady: bool            // data->work.handler installed by init
    var handler: Option<Handler>   // data->als_handler; None is NULL
    var log: seq<Effect>           // the foreign calls made so far, oldest first

    constructor (config: Config)
      ensures this.config == config
      ensures dev == None && !workReady && handler == None && log == []
    {
      this.config := config;
      dev := None;
      workReady := false;
      handler := None;
      log := [];
    }

    /** tsl2540_handle_cb: wake the deferred context (semaphore give or work submit). */
    method HandleCb()
      modifies this`log
      ensures log == old(log) + [Handoff]
    {
      log := log + [Handoff];
    }

    /** tsl2540_gpio_callback, run by the GPIO subsystem with the pins that fired. */
    method GpioCallback(pinMask: bv32)
      modifies this`log
      ensures log == old(log) + GpioCallbackEffects(config.intPin, pinMask)
    {
      if !PinSelected(pinMask, config.intPin) {
        return;
      }
      HandleCb();
    }

    /** tsl2540_handle_int, given the outcome of the STATUS register read. */
    method HandleInt(readRet: int, status: bv8)
      modifies this`log
      ensures log == old(log) + HandleIntEffects(handler, readRet, status)
    {
      log := log + [ReadReg(RegStatus)];
      if readRet == 0 {
        // ASAT (bit 7) and CINT (bit 3) are only logged.
        if Aint(status) {
          if handler.Some? {
            log := log + [InvokeHandler(handler.value, ThresholdLight)];
          }
          log := log + [WriteReg(RegStatus, status)];
        }
      }
    }

    /** tsl2540_trigger_set, given the outcomes of the two register updates. */
    method TriggerSet(trig: SensorTrigger, h: Option<Handler>, intenabRet: int, cfg3Ret: int)
      returns (ret: int)
      modifies this`log, this`handler
      ensures var r := TriggerSetSpec(old(handler), trig, h, intenabRet, cfg3Ret);
              ret == r.ret && handler == r.handler && log == old(log) + r.effects
    {
      if trig.chan == ChanLight {
        match trig.kind {
          case TrigThreshold =>
            log := log + [UpdateReg(RegIntenab)];
            ret := intenabRet;
            if ret == 0 {
              log := log + [UpdateReg(RegCfg3)];
              ret := cfg3Ret;
              if ret == 0 {
                handler := h;
              }
            }
          case TrigOther(_) =>
            ret := -ENOTSUP;
        }
      } else {
        ret := -ENOTSUP;
      }
    }

    /**
     * tsl2540_trigger_init for `device`, given what device_is_ready,
     * gpio_add_callback and gpio_pin_get_dt report.
     */
    method TriggerInit(device: Device, gpioReady: bool, addCallbackRet: int, pinLevel: int)
      returns (ret: int)
      modifies this`log, this`dev, this`workReady
      ensures dev == Some(device) && workReady
      ensures var r := TriggerInitSpec(config.intPin, gpioReady, addCallbackRet, pinLevel);
              ret == r.ret && log == old(log) + r.effects
    {
      dev := Some(device);
      workReady := true;

      log := log + [CheckGpioReady];
      if !gpioReady {
        return -ENODEV;
      }

      log := log + [ConfigurePinInput];

      log := log + [AddCallback(Bit(config.intPin))];
      if addCallbackRet < 0 {
        return -EIO;
      }

      log := log + [ConfigureInterrupt];

      log := log + [GetPin];
      if pinLevel > 0 {
        HandleCb();
      }
      return 0;
    }
  }
}
