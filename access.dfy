/**
 * Register access over SPI (src/registers.rs, traits `ReadableRegister` and
 * `WriteableRegister`): every access is exactly one 2-byte full-duplex
 * exchange. The register type's `ADDR` and `from_byte`/`to_byte` are passed in
 * explicitly, in place of the trait's associated items.
 */
module Access {
  import opened Wrappers
  import opened Registers
  import opened Hal
  import opened Errors

  /** The frame a read of register `addr` clocks out: the read command, then a dummy byte. */
  function ReadFrame(addr: bv8): (f: seq<bv8>)
    ensures |f| == 2 && f[1] == 0
    ensures CommandByte(f[0]).ReadBit() && CommandByte(f[0]).Address() == addr & 0x1F
    ensures f[0] & 0x81 == 0
  {
    [CommandByte.Read(addr).bits, 0x00]
  }

  /** One register write: the target address and the byte to store there. */
  datatype RegisterWrite = RegisterWrite(addr: bv8, value: bv8)

  /** The frame a write clocks out: the write command, then the register's byte. */
  function WriteFrame(w: RegisterWrite): (f: seq<bv8>)
    ensures |f| == 2 && f[1] == w.value
    ensures !CommandByte(f[0]).ReadBit() && CommandByte(f[0]).Address() == w.addr & 0x1F
    ensures f[0] & 0x81 == 0
  {
    [CommandByte.Write(w.addr).bits, w.value]
  }

  /**
   * What a read returns when the peer's replies are `script`: the register
   * decoded from the second byte received, with the status decoded from the
   * first; a failed transfer is an `SpiError`.
   */
  function ReadOutcome<R>(script: seq<Reply>, fromByte: bv8 -> R): (r: Result<(R, Option<FaultStatus>), Drv8873Error>)
    ensures r.Success? <==> Answers(script, 2)
    ensures r.Failure? ==> r.error == SpiError
    ensures r.Success? ==> r.value.0 == fromByte(script[0].rx[1])
    ensures r.Success? ==> (r.value.1.None? <==> script[0].rx[0] == STATUS_OK)
    ensures r.Success? && r.value.1.Some? ==> r.value.1.value.ToByte() == script[0].rx[0] & 0x3F
  {
    if Answers(script, 2) then
      Success((fromByte(script[0].rx[1]), GetStatus(script[0].rx[0])))
    else
      Failure(SpiError)
  }

  /** `ReadableRegister::read`: one exchange, returning the register and the decoded status. */
  method Read<R>(dev: SpiDevice, addr: bv8, fromByte: bv8 -> R)
    returns (r: Result<(R, Option<FaultStatus>), Drv8873Error>)
    modifies dev
    ensures dev.sent == old(dev.sent) + [ReadFrame(addr)]
    ensures dev.script == Rest(old(dev.script))
    ensures r == ReadOutcome(old(dev.script), fromByte)
  {
    var buf := new bv8[2](_ => 0);
    var cb := CommandByte.Read(addr);
    var t := dev.Transfer(buf, [cb.bits, 0x00]);
    if t.Failure? {
      return Failure(SpiError);
    }
    return Success((fromByte(buf[1]), GetStatus(buf[0])));
  }

  /**
   * `WriteableRegister::write`, implemented by the four control registers only:
   * one exchange carrying the register's byte. The status byte that comes back
   * is not inspected, so the write succeeds exactly when the transfer does.
   */
  method Write(dev: SpiDevice, addr: bv8, value: bv8) returns (r: Result<(), Drv8873Error>)
    requires IsControlAddress(addr)
    modifies dev
    ensures dev.sent == old(dev.sent) + [WriteFrame(RegisterWrite(addr, value))]
    ensures dev.script == Rest(old(dev.script))
    ensures r.Success? <==> Answers(old(dev.script), 2)
    ensures r.Failure? ==> r.error == SpiError
  {
    var buf := new bv8[2](_ => 0);
    var cb := CommandByte.Write(addr);
    var t := dev.Transfer(buf, [cb.bits, value]);
    if t.Failure? {
      return Failure(SpiError);
    }
    return Success(());
  }

  /**
   * The exchange of the driver's `registers` test: a fault-register read, a
   * diagnostic-register read and a write of ControlRegister1 = 0xFF against a
   * peer that reports no fault.
   */
  method RegistersExchange()
    returns (sent: seq<seq<bv8>>,
             fault: Result<(FaultStatus, Option<FaultStatus>), Drv8873Error>,
             diag: Result<(DiagnosticStatus, Option<FaultStatus>), Drv8873Error>,
             written: Result<(), Drv8873Error>)
    ensures sent == [[0x40, 0x00], [0x42, 0x00], [0x04, 0xFF]]
    ensures fault.Success? && fault.value.1.None? && fault.value.0.Old()
    ensures diag.Success? && diag.value.1.None? && diag.value.0.Ol1()
    ensures written.Success?
  {
    var spi := new SpiDevice([Respond([0xC0, 0x01]), Respond([0xC0, 0x80]), Respond([0xC0, 0x80])]);
    fault := Read(spi, FAULT_STATUS_ADDR, b => FaultStatus.FromByte(b));
    diag := Read(spi, DIAGNOSTIC_STATUS_ADDR, b => DiagnosticStatus.FromByte(b));
    written := Write(spi, CONTROL_REGISTER1_ADDR, ControlRegister1(0xFF).ToByte());
    sent := spi.sent;
  }

  /** A status byte other than 11000000b comes back as a fault next to the register read. */
  lemma ReadSurfacesStatusFault()
    ensures ReadOutcome([Respond([0xC5, 0x01])], b => FaultStatus.FromByte(b))
            == Success((FaultStatus(0x01), Some(FaultStatus(0x05))))
  {
  }
}
