/** The PAA5100JE optical-flow driver object: its flags, its register codec and
    its public operations, each proved to do exactly what the corresponding
    function of module Sensor says. */
module Driver {
  import opened Bytes
  import opened Spi
  import opened Protocol
  import Sensor

  class Paa5100je {
    /** The bus the driver talks to the sensor over. */
    const bus: Bus
    /** Register addresses from the driver's header. */
    const regs: Sensor.RegisterMap
    /** The vendor optimisation tables from the driver's header. */
    const tables: Sensor.Tables

    var shutdown: bool  // the sensor has been put in shutdown mode
    var cpiSet: bool    // CPI has been derived from a valid working height
    var cpi: real       // counts per inch

    /** The driver's flags and CPI as a value. */
    function State(): Sensor.DriverState
      reads this
    {
      Sensor.DriverState(shutdown, cpiSet, cpi)
    }

    /** A driver over `bus`; the initial flag values come from the header. */
    constructor (bus: Bus, regs: Sensor.RegisterMap, tables: Sensor.Tables,
                 shutdown: bool, cpiSet: bool, cpi: real)
      ensures this.bus == bus && this.regs == regs && this.tables == tables
      ensures State() == Sensor.DriverState(shutdown, cpiSet, cpi)
    {
      this.bus := bus;
      this.regs := regs;
      this.tables := tables;
      this.shutdown := shutdown;
      this.cpiSet := cpiSet;
      this.cpi := cpi;
    }

    // -------------------------------------------------------------------------
    // Register codec

    /** Write one register: the address goes out with bit 7 set. */
    method WriteRegister(reg: bv8, data: bv8)
      modifies bus
      ensures bus.log == Sensor.WriteReg(old(bus.log), reg, data)
      ensures IsWriteAddress(bus.log[|bus.log| - 1].addr)
    {
      var adr := reg | 0x80;
      bus.Write(adr, data);
    }

    /** Read one register: the address goes out with bit 7 cleared. */
    method ReadRegister(reg: bv8) returns (data: bv8)
      modifies bus
      ensures data == Sensor.Answer(bus.miso, old(bus.log), reg)
      ensures bus.log == Sensor.ReadReg(bus.miso, old(bus.log), reg)
      ensures !IsWriteAddress(bus.log[|bus.log| - 1].addr)
    {
      var adr := reg & !0x80;
      data := bus.Read(adr);
    }

    /** Write every entry of a vendor table, in order. */
    method ReplayTable(t: seq<Sensor.Entry>)
      modifies bus
      ensures bus.log == Sensor.Replay(old(bus.log), t)
    {
      for i := 0 to |t|
        invariant bus.log == Sensor.Replay(old(bus.log), t[..i])
      {
        Sensor.ReplaySnoc(old(bus.log), t[..i], t[i]);
        assert t[..i + 1] == t[..i] + [t[i]];
        WriteRegister(t[i].reg, t[i].value);
      }
      assert t[..|t|] == t;
    }

    // -------------------------------------------------------------------------
    // Power lifecycle

    /** The vendor's post-reset register sequence. */
    method PerformanceOptimizationRoutine()
      modifies bus
      ensures bus.log == Sensor.OptimisationLog(bus.miso, old(bus.log), tables)
    {
      ghost var m, h := bus.miso, bus.log;
      ReplayTable(tables.t1);
      ghost var l1 := bus.log;
      var tempRetVal := ReadRegister(0x67);
      ghost var reg67 := tempRetVal;
      tempRetVal := tempRetVal & 0x80;
      if tempRetVal == 0x80 {
        WriteRegister(0x48, 0x04);
      } else {
        WriteRegister(0x48, 0x02);
      }
      assert bus.log == Sensor.WriteReg(Sensor.ReadReg(m, l1, 0x67), 0x48, Sensor.Reg48Value(reg67));
      ReplayTable(tables.t2);
      ghost var l3 := bus.log;
      var reg73 := ReadRegister(0x73);
      ghost var l4 := bus.log;
      if reg73 == 0x00 {
        var reg70 := ReadRegister(0x70);
        var c1 := CalibrationC1(reg70);
        var reg71 := ReadRegister(0x71);
        var c2 := CalibrationC2(reg71);
        WriteRegister(0x7F, 0x00);
        WriteRegister(0x61, 0xAD);
        WriteRegister(0x51, 0x70);
        WriteRegister(0x7F, 0x0E);
        WriteRegister(0x70, c1 as bv8);
        WriteRegister(0x71, c2 as bv8);
        assert bus.log == Sensor.CalibrationLog(m, l4);
      }
      assert bus.log == if Sensor.Answer(m, l3, 0x73) == 0x00 then Sensor.CalibrationLog(m, l4) else l4;
      ReplayTable(tables.t3);
      ReplayTable(tables.t4);
      WriteRegister(0x73, 0x00);
    }

    /** Reset, check identity, drain the motion registers, optimise, leave shutdown. */
    method PowerUpSeq() returns (ok: bool)
      modifies this, bus
      ensures var o := Sensor.PowerUp(old(State()), bus.miso, old(bus.log), regs, tables);
              ok == o.value && State() == o.state && bus.log == o.log
    {
      ghost var m, h, s0 := bus.miso, bus.log, State();
      WriteRegister(regs.powerUpReset, 0x5A);
      var productId := ReadRegister(regs.productId);
      var invProductId := ReadRegister(regs.inverseProductId);
      ghost var l3 := bus.log;
      if productId != 0x49 && invProductId != 0xB6 {
        return false;
      }
      DrainMotionRegisters();
      PerformanceOptimizationRoutine();
      shutdown := false;
      assert Sensor.PowerUp(s0, m, h, regs, tables) == Sensor.Outcome(true, State(), bus.log);
      return true;
    }

    /** The six reads after the identity check that clear the motion registers. */
    method DrainMotionRegisters()
      modifies bus
      ensures bus.log == Sensor.DrainLog(bus.miso, old(bus.log), regs)
    {
      var _ := ReadRegister(regs.motion);
      var _ := ReadRegister(regs.deltaXL);
      var _ := ReadRegister(regs.deltaXH);
      var _ := ReadRegister(regs.deltaYL);
      var _ := ReadRegister(regs.deltaYH);
      var _ := ReadRegister(regs.deltaXH);
    }

    /** Driver initialisation: after the chip-select wake pulse (not modelled), power up. */
    method Init() returns (ok: bool)
      modifies this, bus
      ensures var o := Sensor.PowerUp(old(State()), bus.miso, old(bus.log), regs, tables);
              ok == o.value && State() == o.state && bus.log == o.log
    {
      ok := PowerUpSeq();
    }

    /** Put the sensor in shutdown mode. */
    method PowerDownSeq() returns (ok: bool)
      modifies this, bus
      ensures var o := Sensor.PowerDown(old(State()), old(bus.log), regs);
              ok == o.value && State() == o.state && bus.log == o.log
    {
      WriteRegister(regs.shutdown, 0xB6);
      shutdown := true;
      return true;
    }

    // -------------------------------------------------------------------------
    // Calibration and configuration

    /** Derive CPI from the working height in millimetres; no bus traffic. */
    method SetWorkingHeight(height: real)
      modifies this
      ensures State() == Sensor.SetWorkingHeight(old(State()), height)
    {
      if shutdown {
        return;
      }
      if height < 12.5 || height > 37.5 {
        return;
      }
      var metres := height / 1000.0;
      cpi := 11.914 * (1.0 / metres);
      cpiSet := true;
    }

    /** Set CPI directly; no bus traffic. */
    method SetCpi(newCpi: real)
      modifies this
      ensures State() == Sensor.SetCpi(old(State()), newCpi)
    {
      cpi := newCpi;
    }

    /** Write the resolution register, saturating at 0xA8. (The source's further
        check for a negative value can never hold for an unsigned byte.) */
    method SetResolution(resolution: bv8)
      modifies bus
      ensures bus.log == Sensor.SetResolution(old(bus.log), regs, resolution)
    {
      var value := resolution;
      if value >= 0xA8 {
        value := 0xA8;
      }
      WriteRegister(regs.resolution, value);
    }

    /** Write the orientation register, unless shut down. */
    method SetOrientation(invertX: bool, invertY: bool, swapXY: bool)
      modifies bus
      ensures bus.log == Sensor.SetOrientation(State(), old(bus.log), regs, invertX, invertY, swapXY)
    {
      if shutdown {
        return;
      }
      WriteRegister(regs.orientation, OrientationByte(invertX, invertY, swapXY));
    }

    // -------------------------------------------------------------------------
    // Readings

    /** Surface quality: -99 while shut down, else four times the SQUAL register. */
    method GetSqual() returns (q: int)
      modifies bus
      ensures var o := Sensor.GetSqual(State(), bus.miso, old(bus.log), regs);
              q == o.value && bus.log == o.log
    {
      if shutdown {
        return -99;
      }
      var squal := ReadRegister(regs.squal);
      return squal as int * 4;
    }

    /** The raw observation register. */
    method GetObservation() returns (b: bv8)
      modifies bus
      ensures var o := Sensor.GetObservation(State(), bus.miso, old(bus.log), regs);
              b == o.value && bus.log == o.log
    {
      b := ReadRegister(regs.observation);
    }

    /** Discrete motion read into `deltaVal[0..2]`; on failure `deltaVal` is untouched. */
    method MotionRead(deltaVal: array<int>) returns (ok: bool)
      requires deltaVal.Length >= 2
      modifies bus, deltaVal
      ensures var o := Sensor.MotionRead(State(), bus.miso, old(bus.log), regs);
              && bus.log == o.log
              && ok == o.value.Sample?
              && (ok ==> deltaVal[0] == o.value.dx && deltaVal[1] == o.value.dy && deltaVal[2..] == old(deltaVal[2..]))
              && (!ok ==> deltaVal[..] == old(deltaVal[..]))
    {
      if shutdown {
        return false;
      }
      var motionOccur := ReadRegister(regs.motion);
      motionOccur := motionOccur & 0x80;
      if motionOccur != 0x80 {
        deltaVal[0] := 0;
        deltaVal[1] := 0;
        return true;
      }
      var tempXL := ReadRegister(regs.deltaXL);
      var tempXH := ReadRegister(regs.deltaXH);
      var tempYL := ReadRegister(regs.deltaYL);
      var tempYH := ReadRegister(regs.deltaYH);
      var squal := ReadRegister(regs.squal);
      var shutterUpper := ReadRegister(regs.shutterLower);
      if !QualityAccepted(squal, shutterUpper) {
        return false;
      }
      deltaVal[0] := Int16Of(tempXH, tempXL);
      deltaVal[1] := Int16Of(tempYH, tempYL);
      return true;
    }

    /** One burst transaction: select, send `regAdr`, clock in twelve bytes,
        deselect. */
    method BurstTransfer(regAdr: bv8) returns (tempBurstRet: array<bv8>)
      modifies bus
      ensures fresh(tempBurstRet) && tempBurstRet.Length == 12
      ensures forall j | 0 <= j < 12 :: tempBurstRet[j] == bus.miso(old(bus.log), regAdr, j)
      ensures tempBurstRet[..] == Sensor.BurstPayload(bus.miso, old(bus.log), regAdr)
      ensures bus.log == old(bus.log) + [BurstFrame(regAdr, tempBurstRet[..])]
    {
      tempBurstRet := new bv8[12];
      ghost var h := bus.log;
      bus.BeginBurst(regAdr);
      for i := 0 to 12
        modifies bus, tempBurstRet
        invariant bus.log == h + [BurstFrame(regAdr, tempBurstRet[..i])]
        invariant forall j | 0 <= j < i :: tempBurstRet[j] == bus.miso(h, regAdr, j)
      {
        var b := bus.BurstByte();
        tempBurstRet[i] := b;
        assert tempBurstRet[..i + 1] == tempBurstRet[..i] + [b];
      }
      assert tempBurstRet[..] == tempBurstRet[..12];
    }

    /** Burst motion read into `deltaVal[0..2]`; on failure `deltaVal` is untouched. */
    method BurstMotionRead(deltaVal: array<int>) returns (ok: bool)
      requires deltaVal.Length >= 2
      modifies bus, deltaVal
      ensures var o := Sensor.BurstMotionRead(State(), bus.miso, old(bus.log), regs);
              && bus.log == o.log
              && ok == o.value.Sample?
              && (ok ==> deltaVal[0] == o.value.dx && deltaVal[1] == o.value.dy && deltaVal[2..] == old(deltaVal[2..]))
              && (!ok ==> deltaVal[..] == old(deltaVal[..]))
    {
      if shutdown {
        return false;
      }
      ghost var o := Sensor.BurstMotionRead(State(), bus.miso, bus.log, regs);
      var regAdr := regs.motionBurst;
      regAdr := regAdr & !0x80;
      var tempBurstRet := BurstTransfer(regAdr);
      assert bus.log == o.log && tempBurstRet[..] == o.log[|o.log| - 1].payload;
      assert o.value == Sensor.BurstSample(tempBurstRet[..]);
      ok := StoreBurstSample(tempBurstRet, deltaVal);
    }

    /** The quality gate and the assembly of the signed counts from a burst
        payload: bytes 6 and 10 gate, bytes 3, 2 and 5, 4 are the X and Y words. */
    method StoreBurstSample(tempBurstRet: array<bv8>, deltaVal: array<int>) returns (ok: bool)
      requires tempBurstRet.Length == 12 && deltaVal.Length >= 2
      modifies deltaVal
      ensures ok == Sensor.BurstSample(tempBurstRet[..]).Sample?
      ensures ok ==> deltaVal[0] == Sensor.BurstSample(tempBurstRet[..]).dx && deltaVal[1] == Sensor.BurstSample(tempBurstRet[..]).dy
      ensures ok ==> deltaVal[2..] == old(deltaVal[2..])
      ensures !ok ==> deltaVal[..] == old(deltaVal[..])
    {
      if !QualityAccepted(tempBurstRet[6], tempBurstRet[10]) {
        return false;
      }
      deltaVal[0] := Int16Of(tempBurstRet[3], tempBurstRet[2]);
      deltaVal[1] := Int16Of(tempBurstRet[5], tempBurstRet[4]);
      return true;
    }

    /** Distance by discrete read. The counts are written to `deltaVal`; the
        source then scales them by 25.4 / CPI, which is not modelled. */
    method GetDistance(deltaVal: array<int>) returns (ok: bool)
      requires deltaVal.Length >= 2
      modifies bus, deltaVal
      ensures var o := Sensor.GetDistance(State(), bus.miso, old(bus.log), regs);
              && bus.log == o.log
              && ok == o.value.Sample?
              && (ok ==> deltaVal[0] == o.value.dx && deltaVal[1] == o.value.dy && deltaVal[2..] == old(deltaVal[2..]))
              && (!ok ==> deltaVal[..] == old(deltaVal[..]))
    {
      if shutdown || !cpiSet {
        return false;
      }
      var tempDeltaVal := new int[2](_ => 0);
      ok := MotionRead(tempDeltaVal);
      if !ok {
        return false;
      }
      deltaVal[0] := tempDeltaVal[0];
      deltaVal[1] := tempDeltaVal[1];
    }

    /** Distance by burst read, with the same gating as `GetDistance`. */
    method GetDistanceBurst(deltaVal: array<int>) returns (ok: bool)
      requires deltaVal.Length >= 2
      modifies bus, deltaVal
      ensures var o := Sensor.GetDistanceBurst(State(), bus.miso, old(bus.log), regs);
              && bus.log == o.log
              && ok == o.value.Sample?
              && (ok ==> deltaVal[0] == o.value.dx && deltaVal[1] == o.value.dy && deltaVal[2..] == old(deltaVal[2..]))
              && (!ok ==> deltaVal[..] == old(deltaVal[..]))
    {
      if shutdown || !cpiSet {
        return false;
      }
      var tempDeltaVal := new int[2](_ => 0);
      ok := BurstMotionRead(tempDeltaVal);
      if !ok {
        return false;
      }
      deltaVal[0] := tempDeltaVal[0];
      deltaVal[1] := tempDeltaVal[1];
    }
  }
}
