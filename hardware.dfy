/** The pin levels and PWM duties of the dual H-bridge motor driver.
    Channel A (AIN1 = pin 11, AIN2 = pin 12, PWM on pin 13, LEDC channel 2)
    drives the peristaltic pump; channel B (BIN1 = pin 15, BIN2 = pin 16,
    PWM on pin 14, LEDC channel 1) drives the vacuum pump. The standby
    line STBY (pin 10) is one physical pin that both pumps write. */
module Hardware {
  import opened Ints

  class Board {
    var ain1: bool
    var ain2: bool
    var bin1: bool
    var bin2: bool
    /** Shared standby line; high enables both channels. */
    var stby: bool
    /** Duty last written to the peristaltic pump's LEDC channel. */
    var dutyA: U32
    /** Duty last written to the vacuum pump's LEDC channel. */
    var dutyB: U32

    /** The levels both pumps' begin() leave behind: direction pins low,
        both duties 0, and the driver out of standby. */
    constructor ()
      ensures !ain1 && !ain2 && !bin1 && !bin2
      ensures dutyA == 0 && dutyB == 0
      ensures stby
    {
      ain1, ain2, bin1, bin2 := false, false, false, false;
      dutyA, dutyB := 0, 0;
      stby := true;
    }
  }
}
