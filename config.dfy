/**
 * The configuration bundle (src/config.rs): the four control registers as
 * independent public fields, and their batched write, one 8-byte transfer that
 * carries the four register writes in ascending address order.
 */
module Config {
  import opened Wrappers
  import opened Fields
  import opened Registers
  import opened Hal
  import opened Errors
  import opened Access

  /** The bytes of several register writes sent back to back in one transfer. */
  function BatchFrame(ws: seq<RegisterWrite>): (f: seq<bv8>)
    ensures |f| == 2 * |ws|
  {
    if ws == [] then [] else WriteFrame(ws[0]) + BatchFrame(ws[1..])
  }

  /** The `i`-th pair of a batched frame is exactly the frame of the `i`-th single write. */
  lemma {:induction false} BatchFrameAt(ws: seq<RegisterWrite>, i: nat)
    requires i < |ws|
    ensures BatchFrame(ws)[2 * i] == WriteFrame(ws[i])[0]
    ensures BatchFrame(ws)[2 * i + 1] == WriteFrame(ws[i])[1]
  {
    if i > 0 {
      BatchFrameAt(ws[1..], i - 1);
    }
  }

  datatype Drv8873Config = Drv8873Config(
    cr1: ControlRegister1,
    cr2: ControlRegister2,
    cr3: ControlRegister3,
    cr4: ControlRegister4)
  {
    /** The derived default: every register at its power-on value. */
    static function Default(): (c: Drv8873Config)
      ensures c.cr1.Mode() == PWM && c.cr1.Sr() == VoltPerUs10_8 && c.cr1.Toff() == Us40
      ensures c.cr2.OcpMode() == LatchedFault && c.cr2.OcpTRetry() == Ms4
      ensures c.cr3.Lock() == Unlocked && c.cr4.ITripLvl() == Ampere6_5
      ensures c.cr1.ToByte() == 0x51 && c.cr2.ToByte() == 0x0C
      ensures c.cr3.ToByte() == 0x40 && c.cr4.ToByte() == 0x08
    {
      Drv8873Config(ControlRegister1.Default(), ControlRegister2.Default(),
                    ControlRegister3.Default(), ControlRegister4.Default())
    }

    /** The four register writes the bundle stands for, in address order. */
    function Writes(): (ws: seq<RegisterWrite>)
      ensures |ws| == 4
      ensures forall i :: 0 <= i < 4 ==> IsControlAddress(ws[i].addr) && ws[i].addr == 2 + i as bv8
    {
      [RegisterWrite(CONTROL_REGISTER1_ADDR, cr1.ToByte()),
       RegisterWrite(CONTROL_REGISTER2_ADDR, cr2.ToByte()),
       RegisterWrite(CONTROL_REGISTER3_ADDR, cr3.ToByte()),
       RegisterWrite(CONTROL_REGISTER4_ADDR, cr4.ToByte())]
    }

    /** The single transfer that writes the whole bundle. */
    function Frame(): seq<bv8> {
      BatchFrame(Writes())
    }

    /**
     * The batched write of the bundle: one transfer of the four write frames.
     * The status bytes clocked back are not inspected; a failed transfer is an
     * `SpiError`, and the registers the IC took before the failure stay written.
     */
    method WriteConfig(dev: SpiDevice) returns (r: Result<(), Drv8873Error>)
      modifies dev
      ensures dev.sent == old(dev.sent) + [Frame()]
      ensures dev.script == Rest(old(dev.script))
      ensures r.Success? <==> Answers(old(dev.script), 8)
      ensures r.Failure? ==> r.error == SpiError
    {
      var buf := new bv8[8](_ => 0);
      var tx := [CommandByte.Write(CONTROL_REGISTER1_ADDR).bits, cr1.ToByte(),
                 CommandByte.Write(CONTROL_REGISTER2_ADDR).bits, cr2.ToByte(),
                 CommandByte.Write(CONTROL_REGISTER3_ADDR).bits, cr3.ToByte(),
                 CommandByte.Write(CONTROL_REGISTER4_ADDR).bits, cr4.ToByte()];
      FrameLayout(this);
      var t := dev.Transfer(buf, tx);
      if t.Failure? {
        return Failure(SpiError);
      }
      return Success(());
    }
  }

  /**
   * The bundle's frame, byte by byte: write commands 0x04, 0x06, 0x08, 0x0A
   * (addresses 0x02..0x05), each followed by its register's byte; it is the
   * four single-register write frames back to back.
   */
  lemma FrameLayout(cfg: Drv8873Config)
    ensures cfg.Frame() == [0x04, cfg.cr1.ToByte(), 0x06, cfg.cr2.ToByte(),
                            0x08, cfg.cr3.ToByte(), 0x0A, cfg.cr4.ToByte()]
    ensures cfg.Frame() == WriteFrame(cfg.Writes()[0]) + WriteFrame(cfg.Writes()[1])
                         + WriteFrame(cfg.Writes()[2]) + WriteFrame(cfg.Writes()[3])
  {
    var ws := cfg.Writes();
    BatchFrameAt(ws, 0);
    BatchFrameAt(ws, 1);
    BatchFrameAt(ws, 2);
    BatchFrameAt(ws, 3);
  }

  /** Every command byte of the bundle's frame is a write, and the addresses strictly ascend. */
  lemma FrameAscending(cfg: Drv8873Config)
    ensures forall i :: 0 <= i < 4 ==> !CommandByte(cfg.Frame()[2 * i]).ReadBit()
    ensures forall i, j :: 0 <= i < j < 4 ==>
              CommandByte(cfg.Frame()[2 * i]).Address() < CommandByte(cfg.Frame()[2 * j]).Address()
  {
    FrameLayout(cfg);
  }

  /** The default bundle goes out as 04 51 06 0C 08 40 0A 08. */
  lemma DefaultFrame()
    ensures Drv8873Config.Default().Frame() == [0x04, 0x51, 0x06, 0x0C, 0x08, 0x40, 0x0A, 0x08]
  {
    FrameLayout(Drv8873Config.Default());
  }

  /** Replacing one register of the bundle changes only that register's data byte on the wire. */
  lemma FieldsIndependent(cfg: Drv8873Config, c1: ControlRegister1, c2: ControlRegister2,
                          c3: ControlRegister3, c4: ControlRegister4)
    ensures forall i :: 0 <= i < 8 && i != 1 ==> cfg.(cr1 := c1).Frame()[i] == cfg.Frame()[i]
    ensures forall i :: 0 <= i < 8 && i != 3 ==> cfg.(cr2 := c2).Frame()[i] == cfg.Frame()[i]
    ensures forall i :: 0 <= i < 8 && i != 5 ==> cfg.(cr3 := c3).Frame()[i] == cfg.Frame()[i]
    ensures forall i :: 0 <= i < 8 && i != 7 ==> cfg.(cr4 := c4).Frame()[i] == cfg.Frame()[i]
  {
    FrameLayout(cfg);
    FrameLayout(cfg.(cr1 := c1));
    FrameLayout(cfg.(cr2 := c2));
    FrameLayout(cfg.(cr3 := c3));
    FrameLayout(cfg.(cr4 := c4));
  }
}
