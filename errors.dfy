/** The driver's error type (src/lib.rs). */
module Errors {
  import Registers

  datatype Drv8873Error =
    | Drv8873Fault(fault: Registers.FaultStatus)  // a fault the IC reported
    | SpiError                                    // the SPI transfer failed
    | SleepError                                  // reading or driving nSLEEP failed
    | InputError(reason: string)                  // motor-control inputs unusable
}
