/** The PCA9685 PWM chip, seen only through the commands written to it. */
module Pwm {

  /** One call `pwm.set_pwm(channel, on, off)`: on-tick and off-tick of a channel's pulse. */
  datatype Command = Command(channel: int, on: int, off: int)
}
