/**
 * The parts of the sensor framework that the TSL2540 trigger code consumes:
 * trigger descriptors, application handlers, device handles and the negative
 * errno codes the driver returns.
 */
module Sensor {

  /** Sensor channels; the driver only distinguishes SENSOR_CHAN_LIGHT from the rest. */
  datatype Channel = ChanLight | ChanOther(code: nat)

  /** Trigger types; the driver only distinguishes SENSOR_TRIG_THRESHOLD from the rest. */
  datatype TriggerType = TrigThreshold | TrigOther(code: nat)

  /** struct sensor_trigger: which condition on which channel. */
  datatype SensorTrigger = SensorTrigger(kind: TriggerType, chan: Channel)

  /** The one trigger this driver supports and reports: {THRESHOLD, LIGHT}. */
  const ThresholdLight: SensorTrigger := SensorTrigger(TrigThreshold, ChanLight)

  /**
   * An application handler (a sensor_trigger_handler_t function pointer).
   * A NULL handler is modelled as Option.None where a handler is stored.
   */
  datatype Handler = Handler(id: nat)

  datatype Option<+T> = None | Some(value: T)

  /** A device handle (const struct device *). */
  datatype Device = Device(id: nat)

  /** errno values as defined by Zephyr's C library; the driver returns them negated. */
  const EIO: int := 5
  const ENODEV: int := 19
  const ENOTSUP: int := 134
}
