/**
 * The device handle (src/lib.rs): it owns the SPI device, the optional
 * nFAULT, nSLEEP and DISABLE lines and a configuration bundle, reads the two
 * status registers, writes the bundle, and guards the nSLEEP line with the
 * wake-up (t_wake = 1500 us) and sleep (t_sleep = 50 us) delays.
 */
module Driver {
  import opened Wrappers
  import opened Registers
  import opened Hal
  import opened Errors
  import opened Access
  import opened Config

  /** Time the IC needs after nSLEEP goes high before it answers on SPI. */
  const T_WAKE_US: nat := 1500
  /** Time the IC needs after nSLEEP goes low to enter sleep. */
  const T_SLEEP_US: nat := 50

  /** How the motor inputs are driven; only whether pins were handed over is kept. */
  datatype InputMode =
    | PhaseEnable(pinsAssigned: bool)
    | PWM(pinsAssigned: bool)
    | IndependentHalfBridge(pinsAssigned: bool)
    | InputDisabled

  /** `is_sleeping` with an nSLEEP line in state `s`: asleep exactly when the line is driven low. */
  function SleepingStep(s: PinState): (r: (PinState, Result<bool, Drv8873Error>))
    ensures r.0.level == s.level
    ensures r.1.Success? <==> NextSucceeds(s.script)
    ensures r.1.Success? ==> r.1.value == (s.level == Low) && r.0.events == s.events + [GetState(s.level)]
    ensures r.1.Failure? ==> r.1.error == SleepError && r.0.events == s.events
  {
    var (s1, low) := IsSetLowStep(s);
    (s1, if low.Success? then Success(low.value) else Failure(SleepError))
  }

  /** `awaken` with an nSLEEP line in state `s`: the line's new state, the waits made, the outcome. */
  function AwakenStep(s: PinState): (r: (PinState, seq<nat>, Result<(), Drv8873Error>))
    ensures r.2.Success? <==> NextSucceeds(s.script) && (s.level == Low ==> NextSucceeds(Rest(s.script)))
    ensures r.2.Success? ==> r.0.level == High
    ensures r.2.Failure? ==> r.2.error == SleepError && r.1 == []
    ensures s.level == High ==> r.0.level == High && r.1 == []
                                && (r.0.events == s.events || r.0.events == s.events + [GetState(High)])
    ensures s.level == Low && r.2.Success? ==>
              r.1 == [T_WAKE_US] && r.0.events == s.events + [GetState(Low), Set(High)]
  {
    var (s1, asleep) := SleepingStep(s);
    if asleep.Failure? then (s1, [], Failure(SleepError))
    else if !asleep.value then (s1, [], Success(()))
    else
      var (s2, driven) := DriveStep(s1, High);
      if driven.Failure? then (s2, [], Failure(SleepError)) else (s2, [T_WAKE_US], Success(()))
  }

  /** `sleep` with an nSLEEP line in state `s`: the line's new state, the waits made, the outcome. */
  function SleepStep(s: PinState): (r: (PinState, seq<nat>, Result<(), Drv8873Error>))
    ensures r.2.Success? <==> NextSucceeds(s.script) && (s.level == High ==> NextSucceeds(Rest(s.script)))
    ensures r.2.Success? ==> r.0.level == Low
    ensures r.2.Failure? ==> r.2.error == SleepError && r.1 == []
    ensures s.level == Low ==> r.0.level == Low && r.1 == []
                               && (r.0.events == s.events || r.0.events == s.events + [GetState(Low)])
    ensures s.level == High && r.2.Success? ==>
              r.1 == [T_SLEEP_US] && r.0.events == s.events + [GetState(High), Set(Low)]
  {
    var (s1, asleep) := SleepingStep(s);
    if asleep.Failure? then (s1, [], Failure(SleepError))
    else if asleep.value then (s1, [], Success(()))
    else
      var (s2, driven) := DriveStep(s1, Low);
      if driven.Failure? then (s2, [], Failure(SleepError)) else (s2, [T_SLEEP_US], Success(()))
  }

  /** A second `awaken` right after a successful one drives nothing and waits for nothing. */
  lemma AwakenTwice(s: PinState)
    requires AwakenStep(s).2.Success?
    ensures var s1 := AwakenStep(s).0;
            AwakenStep(s1).1 == [] && AwakenStep(s1).0.level == High
            && forall e :: e in AwakenStep(s1).0.events[|s1.events|..] ==> e == GetState(High)
  {
  }

  /** A second `sleep` right after a successful one drives nothing and waits for nothing. */
  lemma SleepTwice(s: PinState)
    requires SleepStep(s).2.Success?
    ensures var s1 := SleepStep(s).0;
            SleepStep(s1).1 == [] && SleepStep(s1).0.level == Low
            && forall e :: e in SleepStep(s1).0.events[|s1.events|..] ==> e == GetState(Low)
  {
  }

  /**
   * From a line driven low whose operations all succeed, `awaken` then `sleep`
   * reads Low, drives High, waits t_wake, reads High, drives Low, waits t_sleep.
   */
  lemma AwakenThenSleepTrace(events: seq<PinEvent>)
    ensures var (s1, w1, r1) := AwakenStep(PinState(Low, [], events));
            var (s2, w2, r2) := SleepStep(s1);
            r1.Success? && r2.Success? && s2.level == Low
            && s2.events == events + [GetState(Low), Set(High), GetState(High), Set(Low)]
            && w1 + w2 == [1500, 50]
  {
  }

  class Drv8873 {
    var dev: SpiDevice
    var faultPin: Option<WaitPin>
    var sleepPin: Option<OutputPin>
    var disablePin: Option<OutputPin>
    var inputMode: InputMode
    var cfg: Drv8873Config

    /** The nSLEEP line as a frame: empty when the handle has none. */
    function SleepLine(): set<object>
      reads this
    {
      if sleepPin.Some? then {sleepPin.value} else {}
    }

    /** `new`: owns the SPI device, no lines, PWM input without pins, the default bundle. */
    constructor (dev: SpiDevice)
      ensures this.dev == dev
      ensures faultPin == None && sleepPin == None && disablePin == None
      ensures inputMode == PWM(false)
      ensures cfg == Drv8873Config.Default()
    {
      this.dev := dev;
      faultPin := None;
      sleepPin := None;
      disablePin := None;
      inputMode := PWM(false);
      cfg := Drv8873Config.Default();
    }

    method WithFaultPin(pin: WaitPin) returns (d: Drv8873)
      modifies this
      ensures d == this && faultPin == Some(pin)
      ensures dev == old(dev) && sleepPin == old(sleepPin) && disablePin == old(disablePin)
      ensures inputMode == old(inputMode) && cfg == old(cfg)
    {
      faultPin := Some(pin);
      d := this;
    }

    method WithSleepPin(pin: OutputPin) returns (d: Drv8873)
      modifies this
      ensures d == this && sleepPin == Some(pin)
      ensures dev == old(dev) && faultPin == old(faultPin) && disablePin == old(disablePin)
      ensures inputMode == old(inputMode) && cfg == old(cfg)
    {
      sleepPin := Some(pin);
      d := this;
    }

    /** The DISABLE line: driven high, it turns the output drivers off. */
    method WithDisablePin(pin: OutputPin) returns (d: Drv8873)
      modifies this
      ensures d == this && disablePin == Some(pin)
      ensures dev == old(dev) && faultPin == old(faultPin) && sleepPin == old(sleepPin)
      ensures inputMode == old(inputMode) && cfg == old(cfg)
    {
      disablePin := Some(pin);
      d := this;
    }

    /** Writes the held bundle in one transfer; succeeds exactly when that transfer does. */
    method SetConfig() returns (r: Result<(), Drv8873Error>)
      modifies dev
      ensures dev.sent == old(dev.sent) + [cfg.Frame()]
      ensures dev.script == Rest(old(dev.script))
      ensures r.Success? <==> Answers(old(dev.script), 8)
      ensures r.Failure? ==> r.error == SpiError
    {
      r := cfg.WriteConfig(dev);
      if r.Failure? {
        return Failure(r.error);
      }
      return Success(());
    }

    /** Reads the fault register at 0x00; the status byte of the exchange is dropped. */
    method GetFault() returns (r: Result<FaultStatus, Drv8873Error>)
      modifies dev
      ensures dev.sent == old(dev.sent) + [ReadFrame(FAULT_STATUS_ADDR)]
      ensures dev.script == Rest(old(dev.script))
      ensures r.Success? <==> Answers(old(dev.script), 2)
      ensures r.Success? ==> r.value.ToByte() == old(dev.script)[0].rx[1]
      ensures r.Failure? ==> r.error == SpiError
    {
      var res := Read(dev, FAULT_STATUS_ADDR, b => FaultStatus.FromByte(b));
      if res.Failure? {
        return Failure(res.error);
      }
      var (fs, _) := res.value;
      return Success(fs);
    }

    /** Reads the diagnostic register at 0x01; the status byte of the exchange is dropped. */
    method GetDiagnostics() returns (r: Result<DiagnosticStatus, Drv8873Error>)
      modifies dev
      ensures dev.sent == old(dev.sent) + [ReadFrame(DIAGNOSTIC_STATUS_ADDR)]
      ensures dev.script == Rest(old(dev.script))
      ensures r.Success? <==> Answers(old(dev.script), 2)
      ensures r.Success? ==> r.value.ToByte() == old(dev.script)[0].rx[1]
      ensures r.Failure? ==> r.error == SpiError
    {
      var res := Read(dev, DIAGNOSTIC_STATUS_ADDR, b => DiagnosticStatus.FromByte(b));
      if res.Failure? {
        return Failure(res.error);
      }
      var (ds, _) := res.value;
      return Success(ds);
    }

    /** Asleep exactly when nSLEEP is driven low; never asleep without the line. */
    method IsSleeping() returns (r: Result<bool, Drv8873Error>)
      modifies SleepLine()
      ensures sleepPin.None? ==> r == Success(false)
      ensures sleepPin.Some? ==>
                (sleepPin.value.State(), r) == SleepingStep(old(sleepPin.value.State()))
    {
      if sleepPin.Some? {
        var low := sleepPin.value.IsSetLow();
        if low.Failure? {
          return Failure(SleepError);
        }
        return Success(low.value);
      }
      return Success(false);
    }

    /** Drives nSLEEP high and waits t_wake when the device sleeps; otherwise does nothing. */
    method Awaken(delay: Delay) returns (r: Result<(), Drv8873Error>)
      modifies SleepLine(), delay
      ensures sleepPin.None? ==> r == Success(()) && delay.waited == old(delay.waited)
      ensures sleepPin.Some? ==>
                var (s, waits, res) := AwakenStep(old(sleepPin.value.State()));
                sleepPin.value.State() == s && delay.waited == old(delay.waited) + waits && r == res
    {
      var asleep := IsSleeping();
      if asleep.Failure? {
        return Failure(asleep.error);
      }
      if asleep.value {
        if sleepPin.Some? {
          var driven := sleepPin.value.SetHigh();
          if driven.Failure? {
            return Failure(SleepError);
          }
          delay.DelayUs(T_WAKE_US);
        }
      }
      return Success(());
    }

    /** Drives nSLEEP low and waits t_sleep when the device is awake; otherwise does nothing. */
    method Sleep(delay: Delay) returns (r: Result<(), Drv8873Error>)
      modifies SleepLine(), delay
      ensures sleepPin.None? ==> r == Success(()) && delay.waited == old(delay.waited)
      ensures sleepPin.Some? ==>
                var (s, waits, res) := SleepStep(old(sleepPin.value.State()));
                sleepPin.value.State() == s && delay.waited == old(delay.waited) + waits && r == res
    {
      var asleep := IsSleeping();
      if asleep.Failure? {
        return Failure(asleep.error);
      }
      if !asleep.value {
        if sleepPin.Some? {
          var driven := sleepPin.value.SetLow();
          if driven.Failure? {
            return Failure(SleepError);
          }
          delay.DelayUs(T_SLEEP_US);
        }
      }
      return Success(());
    }
  }

  /**
   * The call sequence of the driver's `dev` test on a prepared handle: wake
   * the device, read the fault and diagnostic registers, write the bundle,
   * put the device back to sleep.
   */
  method RunSession(d: Drv8873, spi: SpiDevice, nSleep: OutputPin, delay: Delay)
    returns (fault: Result<FaultStatus, Drv8873Error>, diag: Result<DiagnosticStatus, Drv8873Error>,
             written: Result<(), Drv8873Error>)
    requires d.dev == spi && d.sleepPin == Some(nSleep) && d.cfg == Drv8873Config.Default()
    requires spi.sent == [] && delay.waited == []
    requires spi.script == [Respond([0xC0, 0x01]), Respond([0xC0, 0x80]),
                            Respond([0xC0, 0x80, 0xC0, 0x80, 0xC0, 0x80, 0xC0, 0x80])]
    requires nSleep.State() == PinState(Low, [], [])
    modifies spi, nSleep, delay
    ensures spi.sent == [ReadFrame(FAULT_STATUS_ADDR), ReadFrame(DIAGNOSTIC_STATUS_ADDR),
                         Drv8873Config.Default().Frame()]
    ensures nSleep.events == [GetState(Low), Set(High), GetState(High), Set(Low)]
    ensures delay.waited == [T_WAKE_US, T_SLEEP_US]
    ensures fault == Success(FaultStatus(0x01)) && diag == Success(DiagnosticStatus(0x80))
    ensures written.Success?
  {
    var woke := d.Awaken(delay);
    assert nSleep.State() == PinState(High, [], [GetState(Low), Set(High)]);
    assert delay.waited == [T_WAKE_US];
    fault := d.GetFault();
    diag := d.GetDiagnostics();
    assert spi.script == [Respond([0xC0, 0x80, 0xC0, 0x80, 0xC0, 0x80, 0xC0, 0x80])];
    written := d.SetConfig();
    var slept := d.Sleep(delay);
  }

  /**
   * The driver's `dev` test: a handle with nFAULT and nSLEEP lines (nSLEEP low)
   * against a peer that reports no fault; the SPI frames, the nSLEEP trace and
   * the waits are exactly the expected ones.
   */
  method DeviceSession()
    returns (sent: seq<seq<bv8>>, pinEvents: seq<PinEvent>, waits: seq<nat>,
             fault: Result<FaultStatus, Drv8873Error>, diag: Result<DiagnosticStatus, Drv8873Error>,
             written: Result<(), Drv8873Error>)
    ensures sent == [[0x40, 0x00], [0x42, 0x00], [0x04, 0x51, 0x06, 0x0C, 0x08, 0x40, 0x0A, 0x08]]
    ensures pinEvents == [GetState(Low), Set(High), GetState(High), Set(Low)]
    ensures waits == [T_WAKE_US, T_SLEEP_US]
    ensures fault.Success? && fault.value.Old()
    ensures diag.Success? && diag.value.Ol1()
    ensures written.Success?
  {
    var spi := new SpiDevice([Respond([0xC0, 0x01]), Respond([0xC0, 0x80]),
                              Respond([0xC0, 0x80, 0xC0, 0x80, 0xC0, 0x80, 0xC0, 0x80])]);
    var nFault := new WaitPin();
    var nSleep := new OutputPin(Low, []);
    var delay := new Delay();
    var d := new Drv8873(spi);
    d := d.WithFaultPin(nFault);
    d := d.WithSleepPin(nSleep);
    fault, diag, written := RunSession(d, spi, nSleep, delay);
    DefaultFrame();
    sent, pinEvents, waits := spi.sent, nSleep.events, delay.waited;
  }
}
