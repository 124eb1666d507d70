/**
 * The register layer of the DRV8873 driver: the command byte that opens every
 * SPI exchange, the status byte that comes back on every exchange, the field
 * enumerations, and the six 8-bit registers with their bit-field layouts and
 * power-on defaults (src/registers.rs).
 *
 * Every register is a plain byte: reserved and undefined bit patterns are kept
 * as they are, so `FromByte` and `ToByte` are inverse on all 256 values.
 */
module Registers {
  import opened Wrappers
  import opened Bits
  import opened Fields

  // ---------------------------------------------------------------------
  // Command byte: bits 5..1 hold the register address, bit 6 is the read
  // flag, bits 0 and 7 stay clear.

  const ADDRESS_MASK: bv8 := 0x3E
  const READ_BIT: bv8 := 0x40

  datatype CommandByte = CommandByte(bits: bv8) {

    /** The 5-bit register address in bits 5..1. */
    function Address(): bv8 {
      (bits & ADDRESS_MASK) >> 1
    }

    /** The read flag, bit 6. */
    function ReadBit(): bool {
      Flag(bits, READ_BIT)
    }

    /** Writes the low five bits of `addr` into bits 5..1; higher address bits are shifted out or masked off. */
    function SetAddress(addr: bv8): (r: CommandByte)
      ensures r.Address() == addr & 0x1F
      ensures SameOutside(bits, r.bits, ADDRESS_MASK)
    {
      CommandByte(Insert(bits, ADDRESS_MASK, addr << 1))
    }

    function SetReadBit(v: bool): (r: CommandByte)
      ensures r.ReadBit() == v
      ensures SameOutside(bits, r.bits, READ_BIT)
    {
      CommandByte(WithFlag(bits, READ_BIT, v))
    }

    /** The command byte of a register write: the masked address, read flag clear. */
    static function Write(addr: bv8): (r: CommandByte)
      ensures r.bits == (addr & 0x1F) << 1
      ensures !r.ReadBit() && r.Address() == addr & 0x1F
      ensures r.bits & 0x81 == 0
    {
      CommandByte(0).SetAddress(addr)
    }

    /** The command byte of a register read: the masked address with the read flag set. */
    static function Read(addr: bv8): (r: CommandByte)
      ensures r.bits == READ_BIT | ((addr & 0x1F) << 1)
      ensures r.ReadBit() && r.Address() == addr & 0x1F
      ensures r.bits & 0x81 == 0
    {
      CommandByte(0).SetReadBit(true).SetAddress(addr)
    }
  }

  /** The status byte an exchange returns when no fault is pending: both marker bits set, no flag. */
  const STATUS_OK: bv8 := 0xC0

  /**
   * Decodes the status byte that comes back first on every exchange. Anything
   * but the exact OK pattern is reported, as a fault register holding the low
   * six bits; the two marker bits never reach the reported register, so its
   * reserved bit 7 and its global `Fault` flag (bit 6) read as clear.
   */
  function GetStatus(status: bv8): (r: Option<FaultStatus>)
    ensures r.None? <==> status == STATUS_OK
    ensures r.Some? ==> r.value.ToByte() & 0x3F == status & 0x3F
    ensures r.Some? ==> r.value.ToByte() & 0xC0 == 0 && !r.value.Fault()
    ensures r.Some? && status & 0xC0 == 0xC0 ==> r.value.ToByte() != 0
  {
    if status != STATUS_OK then Some(FaultStatus(status & 0x3F)) else None
  }

  // ---------------------------------------------------------------------
  // Register addresses and field masks.

  const FAULT_STATUS_ADDR: bv8 := 0x00
  const DIAGNOSTIC_STATUS_ADDR: bv8 := 0x01
  const CONTROL_REGISTER1_ADDR: bv8 := 0x02
  const CONTROL_REGISTER2_ADDR: bv8 := 0x03
  const CONTROL_REGISTER3_ADDR: bv8 := 0x04
  const CONTROL_REGISTER4_ADDR: bv8 := 0x05

  /** The addresses of the registers that accept a write. */
  predicate IsControlAddress(addr: bv8) {
    CONTROL_REGISTER1_ADDR <= addr <= CONTROL_REGISTER4_ADDR
  }

  // ControlRegister1
  const MODE_MASK: bv8 := 0x03
  const SR_MASK: bv8 := 0x1C
  const SPI_IN_MASK: bv8 := 0x20
  const TOFF_MASK: bv8 := 0xC0
  // ControlRegister2
  const OCP_MODE_MASK: bv8 := 0x03
  const OCP_T_RETRY_MASK: bv8 := 0x0C
  const DIS_CPUV_MASK: bv8 := 0x10
  const OTW_REP_MASK: bv8 := 0x20
  const TSD_MODE_MASK: bv8 := 0x40
  const ITRIP_REP_MASK: bv8 := 0x80
  // ControlRegister3
  const PH_IN2_MASK: bv8 := 0x01
  const EN_IN1_MASK: bv8 := 0x02
  const OUT2_DIS_MASK: bv8 := 0x04
  const OUT1_DIS_MASK: bv8 := 0x08
  const LOCK_MASK: bv8 := 0x70
  const CLR_FLT_MASK: bv8 := 0x80
  // ControlRegister4
  const I_TRIP_MASK: bv8 := 0x03
  const I_TRIP_LVL_MASK: bv8 := 0x0C
  const EN_OLA_MASK: bv8 := 0x10
  const OLP_DLY_MASK: bv8 := 0x20
  const EN_OLP_MASK: bv8 := 0x40
  const RSVD_MASK: bv8 := 0x80

  // ---------------------------------------------------------------------
  // The read-only registers.

  /** Address 0x00: one flag per fault condition in bits 6..0; bit 7 is reserved. */
  datatype FaultStatus = FaultStatus(bits: bv8) {

    static function FromByte(b: bv8): (r: FaultStatus)
      ensures r.ToByte() == b
    {
      FaultStatus(b)
    }

    function ToByte(): bv8 {
      bits
    }

    static function Default(): (r: FaultStatus)
      ensures !r.Old() && !r.Tsd() && !r.Ocp() && !r.Cpuv() && !r.Uvlo() && !r.Otw() && !r.Fault()
      ensures r.ToByte() == 0
    {
      FaultStatus(0)
    }

    /** Open-load detected. */
    function Old(): bool { Flag(bits, 0x01) }
    /** Overtemperature shutdown. */
    function Tsd(): bool { Flag(bits, 0x02) }
    /** Overcurrent. */
    function Ocp(): bool { Flag(bits, 0x04) }
    /** Charge-pump undervoltage. */
    function Cpuv(): bool { Flag(bits, 0x08) }
    /** Supply undervoltage lockout. */
    function Uvlo(): bool { Flag(bits, 0x10) }
    /** Overtemperature warning. */
    function Otw(): bool { Flag(bits, 0x20) }
    /** Global fault, the register-side copy of the nFAULT pin. */
    function Fault(): bool { Flag(bits, 0x40) }
  }

  /** Address 0x01: per-half-bridge overcurrent, current regulation and open-load flags. */
  datatype DiagnosticStatus = DiagnosticStatus(bits: bv8) {

    static function FromByte(b: bv8): (r: DiagnosticStatus)
      ensures r.ToByte() == b
    {
      DiagnosticStatus(b)
    }

    function ToByte(): bv8 {
      bits
    }

    static function Default(): (r: DiagnosticStatus)
      ensures !r.OcpL2() && !r.OcpH2() && !r.OcpL1() && !r.OcpH1()
      ensures !r.Itrip2() && !r.Itrip1() && !r.Ol2() && !r.Ol1()
      ensures r.ToByte() == 0
    {
      DiagnosticStatus(0)
    }

    function OcpL2(): bool { Flag(bits, 0x01) }
    function OcpH2(): bool { Flag(bits, 0x02) }
    function OcpL1(): bool { Flag(bits, 0x04) }
    function OcpH1(): bool { Flag(bits, 0x08) }
    function Itrip2(): bool { Flag(bits, 0x10) }
    function Itrip1(): bool { Flag(bits, 0x20) }
    function Ol2(): bool { Flag(bits, 0x40) }
    function Ol1(): bool { Flag(bits, 0x80) }
  }

  // ---------------------------------------------------------------------
  // The control registers. Every setter changes only the bits of its own
  // field, after which the field's getter returns the value set.

  /** Address 0x02: input mode, slew rate, SPI input select, off time. */
  datatype ControlRegister1 = ControlRegister1(bits: bv8) {

    static function FromByte(b: bv8): (r: ControlRegister1)
      ensures r.ToByte() == b
    {
      ControlRegister1(b)
    }

    function ToByte(): bv8 {
      bits
    }

    /** Power-on value: PWM mode, 10.8 V/us, 40 us off time. */
    static function Default(): (r: ControlRegister1)
      ensures r.Mode() == PWM && r.Sr() == VoltPerUs10_8 && r.Toff() == Us40 && !r.SpiIn()
      ensures r.ToByte() == 0x51
    {
      ControlRegister1(0).SetMode(PWM).SetSr(VoltPerUs10_8).SetToff(Us40)
    }

    function Mode(): Mode { Fields.Mode.FromCode(bits & MODE_MASK) }
    function Sr(): RiseTime { RiseTime.FromCode((bits & SR_MASK) >> 2) }
    function SpiIn(): bool { Flag(bits, SPI_IN_MASK) }
    function Toff(): Toff { Fields.Toff.FromCode((bits & TOFF_MASK) >> 6) }

    function SetMode(v: Mode): (r: ControlRegister1)
      ensures r.Mode() == v && SameOutside(bits, r.bits, MODE_MASK)
    {
      ControlRegister1(Insert(bits, MODE_MASK, v.Code()))
    }

    function SetSr(v: RiseTime): (r: ControlRegister1)
      ensures r.Sr() == v && SameOutside(bits, r.bits, SR_MASK)
    {
      ControlRegister1(Insert(bits, SR_MASK, v.Code() << 2))
    }

    function SetSpiIn(v: bool): (r: ControlRegister1)
      ensures r.SpiIn() == v && SameOutside(bits, r.bits, SPI_IN_MASK)
    {
      ControlRegister1(WithFlag(bits, SPI_IN_MASK, v))
    }

    function SetToff(v: Toff): (r: ControlRegister1)
      ensures r.Toff() == v && SameOutside(bits, r.bits, TOFF_MASK)
    {
      ControlRegister1(Insert(bits, TOFF_MASK, v.Code() << 6))
    }
  }

  /** Address 0x03: overcurrent handling and fault reporting options. */
  datatype ControlRegister2 = ControlRegister2(bits: bv8) {

    static function FromByte(b: bv8): (r: ControlRegister2)
      ensures r.ToByte() == b
    {
      ControlRegister2(b)
    }

    function ToByte(): bv8 {
      bits
    }

    /** Power-on value: latched overcurrent fault, 4 ms retry time. */
    static function Default(): (r: ControlRegister2)
      ensures r.OcpMode() == LatchedFault && r.OcpTRetry() == Ms4
      ensures !r.DisCpuv() && !r.OtwRep() && !r.TsdMode() && !r.ItripRep()
      ensures r.ToByte() == 0x0C
    {
      ControlRegister2(0).SetOcpMode(LatchedFault).SetOcpTRetry(Ms4)
    }

    function OcpMode(): OcpMode { Fields.OcpMode.FromCode(bits & OCP_MODE_MASK) }
    function OcpTRetry(): OcpTRetry { Fields.OcpTRetry.FromCode((bits & OCP_T_RETRY_MASK) >> 2) }
    function DisCpuv(): bool { Flag(bits, DIS_CPUV_MASK) }
    function OtwRep(): bool { Flag(bits, OTW_REP_MASK) }
    function TsdMode(): bool { Flag(bits, TSD_MODE_MASK) }
    function ItripRep(): bool { Flag(bits, ITRIP_REP_MASK) }

    function SetOcpMode(v: OcpMode): (r: ControlRegister2)
      ensures r.OcpMode() == v && SameOutside(bits, r.bits, OCP_MODE_MASK)
    {
      ControlRegister2(Insert(bits, OCP_MODE_MASK, v.Code()))
    }

    function SetOcpTRetry(v: OcpTRetry): (r: ControlRegister2)
      ensures r.OcpTRetry() == v && SameOutside(bits, r.bits, OCP_T_RETRY_MASK)
    {
      ControlRegister2(Insert(bits, OCP_T_RETRY_MASK, v.Code() << 2))
    }

    function SetDisCpuv(v: bool): (r: ControlRegister2)
      ensures r.DisCpuv() == v && SameOutside(bits, r.bits, DIS_CPUV_MASK)
    {
      ControlRegister2(WithFlag(bits, DIS_CPUV_MASK, v))
    }

    function SetOtwRep(v: bool): (r: ControlRegister2)
      ensures r.OtwRep() == v && SameOutside(bits, r.bits, OTW_REP_MASK)
    {
      ControlRegister2(WithFlag(bits, OTW_REP_MASK, v))
    }

    function SetTsdMode(v: bool): (r: ControlRegister2)
      ensures r.TsdMode() == v && SameOutside(bits, r.bits, TSD_MODE_MASK)
    {
      ControlRegister2(WithFlag(bits, TSD_MODE_MASK, v))
    }

    function SetItripRep(v: bool): (r: ControlRegister2)
      ensures r.ItripRep() == v && SameOutside(bits, r.bits, ITRIP_REP_MASK)
    {
      ControlRegister2(WithFlag(bits, ITRIP_REP_MASK, v))
    }
  }

  /** Address 0x04: SPI-driven inputs, half-bridge disables, register lock, fault clear. */
  datatype ControlRegister3 = ControlRegister3(bits: bv8) {

    static function FromByte(b: bv8): (r: ControlRegister3)
      ensures r.ToByte() == b
    {
      ControlRegister3(b)
    }

    function ToByte(): bv8 {
      bits
    }

    /** Power-on value: registers unlocked, every other bit clear. */
    static function Default(): (r: ControlRegister3)
      ensures r.Lock() == Unlocked
      ensures !r.PhIn2() && !r.EnIn1() && !r.Out2Dis() && !r.Out1Dis() && !r.ClrFlt()
      ensures r.ToByte() == 0x40
    {
      ControlRegister3(0).SetLock(Unlocked)
    }

    function PhIn2(): bool { Flag(bits, PH_IN2_MASK) }
    function EnIn1(): bool { Flag(bits, EN_IN1_MASK) }
    function Out2Dis(): bool { Flag(bits, OUT2_DIS_MASK) }
    function Out1Dis(): bool { Flag(bits, OUT1_DIS_MASK) }
    function Lock(): Lock { Fields.Lock.FromCode((bits & LOCK_MASK) >> 4) }
    function ClrFlt(): bool { Flag(bits, CLR_FLT_MASK) }

    function SetPhIn2(v: bool): (r: ControlRegister3)
      ensures r.PhIn2() == v && SameOutside(bits, r.bits, PH_IN2_MASK)
    {
      ControlRegister3(WithFlag(bits, PH_IN2_MASK, v))
    }

    function SetEnIn1(v: bool): (r: ControlRegister3)
      ensures r.EnIn1() == v && SameOutside(bits, r.bits, EN_IN1_MASK)
    {
      ControlRegister3(WithFlag(bits, EN_IN1_MASK, v))
    }

    function SetOut2Dis(v: bool): (r: ControlRegister3)
      ensures r.Out2Dis() == v && SameOutside(bits, r.bits, OUT2_DIS_MASK)
    {
      ControlRegister3(WithFlag(bits, OUT2_DIS_MASK, v))
    }

    function SetOut1Dis(v: bool): (r: ControlRegister3)
      ensures r.Out1Dis() == v && SameOutside(bits, r.bits, OUT1_DIS_MASK)
    {
      ControlRegister3(WithFlag(bits, OUT1_DIS_MASK, v))
    }

    function SetLock(v: Lock): (r: ControlRegister3)
      ensures r.Lock() == v && SameOutside(bits, r.bits, LOCK_MASK)
      ensures r.bits & LOCK_MASK == v.Code() << 4
    {
      ControlRegister3(Insert(bits, LOCK_MASK, v.Code() << 4))
    }

    function SetClrFlt(v: bool): (r: ControlRegister3)
      ensures r.ClrFlt() == v && SameOutside(bits, r.bits, CLR_FLT_MASK)
    {
      ControlRegister3(WithFlag(bits, CLR_FLT_MASK, v))
    }
  }

  /** Address 0x05: current regulation and open-load diagnostics; bit 7 is reserved and read-only. */
  datatype ControlRegister4 = ControlRegister4(bits: bv8) {

    static function FromByte(b: bv8): (r: ControlRegister4)
      ensures r.ToByte() == b
    {
      ControlRegister4(b)
    }

    function ToByte(): bv8 {
      bits
    }

    /** Power-on value: 6.5 A current regulation level, every other bit clear. */
    static function Default(): (r: ControlRegister4)
      ensures r.ITripLvl() == Ampere6_5 && r.ITrip() == Enabled
      ensures !r.EnOla() && !r.OlpDly() && !r.EnOlp() && !r.Rsvd()
      ensures r.ToByte() == 0x08
    {
      ControlRegister4(0).SetITripLvl(Ampere6_5)
    }

    function ITrip(): ITrip { Fields.ITrip.FromCode(bits & I_TRIP_MASK) }
    function ITripLvl(): ITripLvl { Fields.ITripLvl.FromCode((bits & I_TRIP_LVL_MASK) >> 2) }
    function EnOla(): bool { Flag(bits, EN_OLA_MASK) }
    function OlpDly(): bool { Flag(bits, OLP_DLY_MASK) }
    function EnOlp(): bool { Flag(bits, EN_OLP_MASK) }
    function Rsvd(): bool { Flag(bits, RSVD_MASK) }

    function SetITrip(v: ITrip): (r: ControlRegister4)
      ensures r.ITrip() == v && SameOutside(bits, r.bits, I_TRIP_MASK)
    {
      ControlRegister4(Insert(bits, I_TRIP_MASK, v.Code()))
    }

    function SetITripLvl(v: ITripLvl): (r: ControlRegister4)
      ensures r.ITripLvl() == v && SameOutside(bits, r.bits, I_TRIP_LVL_MASK)
    {
      ControlRegister4(Insert(bits, I_TRIP_LVL_MASK, v.Code() << 2))
    }

    function SetEnOla(v: bool): (r: ControlRegister4)
      ensures r.EnOla() == v && SameOutside(bits, r.bits, EN_OLA_MASK)
    {
      ControlRegister4(WithFlag(bits, EN_OLA_MASK, v))
    }

    /** The setter of the `OlpDly` bit; the source names it `set_old_dly`. */
    function SetOldDly(v: bool): (r: ControlRegister4)
      ensures r.OlpDly() == v && SameOutside(bits, r.bits, OLP_DLY_MASK)
    {
      ControlRegister4(WithFlag(bits, OLP_DLY_MASK, v))
    }

    function SetEnOlp(v: bool): (r: ControlRegister4)
      ensures r.EnOlp() == v && SameOutside(bits, r.bits, EN_OLP_MASK)
    {
      ControlRegister4(WithFlag(bits, EN_OLP_MASK, v))
    }
  }

  /** `ToByte` undoes `FromByte` on every register value, reserved bits included. */
  lemma RegisterBytesRoundTrip(fs: FaultStatus, ds: DiagnosticStatus, c1: ControlRegister1,
                               c2: ControlRegister2, c3: ControlRegister3, c4: ControlRegister4)
    ensures FaultStatus.FromByte(fs.ToByte()) == fs
    ensures DiagnosticStatus.FromByte(ds.ToByte()) == ds
    ensures ControlRegister1.FromByte(c1.ToByte()) == c1
    ensures ControlRegister2.FromByte(c2.ToByte()) == c2
    ensures ControlRegister3.FromByte(c3.ToByte()) == c3
    ensures ControlRegister4.FromByte(c4.ToByte()) == c4
  {
  }
}
