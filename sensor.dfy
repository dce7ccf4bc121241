/** What every public operation of the PAA5100JE driver does, as functions from
    the driver's flags, the bus log so far and the sensor's answers to the
    operation's result, the new flags and the new bus log. The driver class is
    proved to behave exactly as these functions say. */
module Sensor {
  import opened Bytes
  import opened Spi
  import opened Protocol

  /** Register addresses the driver uses by name. Their numeric values are fixed
      by the driver's header, which is not part of this model, so they are
      parameters here. */
  datatype RegisterMap = RegisterMap(
    powerUpReset: bv8, productId: bv8, inverseProductId: bv8,
    motion: bv8, deltaXL: bv8, deltaXH: bv8, deltaYL: bv8, deltaYH: bv8,
    squal: bv8, shutterLower: bv8, shutdown: bv8, resolution: bv8,
    orientation: bv8, motionBurst: bv8, observation: bv8)

  /** One (register, value) pair of a vendor optimisation table. */
  datatype Entry = Entry(reg: bv8, value: bv8)

  datatype OptTables = OptTables(t1: seq<Entry>, t2: seq<Entry>, t3: seq<Entry>, t4: seq<Entry>)

  /** The four vendor tables replayed at power-up, with their fixed lengths. */
  type Tables = t: OptTables | |t.t1| == 5 && |t.t2| == 5 && |t.t3| == 67 && |t.t4| == 16
    witness OptTables(seq(5, _ => Entry(0, 0)), seq(5, _ => Entry(0, 0)),
                      seq(67, _ => Entry(0, 0)), seq(16, _ => Entry(0, 0)))

  /** The driver's mutable state: the shutdown flag, the "CPI has been set from a
      working height" flag and the counts-per-inch value. */
  datatype DriverState = DriverState(shutdown: bool, cpiSet: bool, cpi: real)

  /** The outcome of a motion read: no sample (the read failed) or signed counts. */
  datatype Motion = NoSample | Sample(dx: int, dy: int)

  /** What an operation returns, the state it leaves and the bus log after it. */
  datatype Outcome<T> = Outcome(value: T, state: DriverState, log: Log)

  // ---------------------------------------------------------------------------
  // Register codec

  /** The byte the sensor answers to a single read of `reg` after log `h`. */
  function Answer(m: Miso, h: Log, reg: bv8): bv8 {
    m(h, ReadAddress(reg), 0)
  }

  /** The log after writing `v` to register `reg`. */
  function WriteReg(h: Log, reg: bv8, v: bv8): Log {
    h + [WriteFrame(WriteAddress(reg), v)]
  }

  /** The log after reading register `reg`. */
  function ReadReg(m: Miso, h: Log, reg: bv8): Log {
    h + [ReadFrame(ReadAddress(reg), Answer(m, h, reg))]
  }

  /** A register write is one more transaction: a write addressed to `reg` with
      bit 7 set, carrying `v`. */
  lemma WriteRegFrame(h: Log, reg: bv8, v: bv8)
    ensures var l := WriteReg(h, reg, v);
      && Emits(h, l) && |l| == |h| + 1
      && l[|h|].WriteFrame? && IsWriteAddress(l[|h|].addr) && RegisterOf(l[|h|].addr) == RegisterOf(reg)
      && l[|h|].data == v
  {
  }

  /** A register read is one more transaction: a read addressed to `reg` with
      bit 7 clear, carrying the byte the sensor shifts out for that address,
      which is `Answer` of the log before it. */
  lemma ReadRegFrame(m: Miso, h: Log, reg: bv8)
    ensures var l := ReadReg(m, h, reg);
      && Emits(h, l) && |l| == |h| + 1
      && l[|h|].ReadFrame? && !IsWriteAddress(l[|h|].addr) && RegisterOf(l[|h|].addr) == RegisterOf(reg)
      && l[|h|].data == m(h, l[|h|].addr, 0) == Answer(m, h, reg)
    ensures forall addr | !IsWriteAddress(addr) && RegisterOf(addr) == RegisterOf(reg) :: Answer(m, h, reg) == m(h, addr, 0)
  {
    forall addr | !IsWriteAddress(addr) && RegisterOf(addr) == RegisterOf(reg)
      ensures Answer(m, h, reg) == m(h, addr, 0)
    {
      AddressDecodes(addr);
      assert ReadAddress(RegisterOf(reg)) == ReadAddress(reg);
    }
  }

  /** The write transactions that replay a table, entry by entry and in order. */
  function TableWrites(t: seq<Entry>): (tr: Log)
    ensures |tr| == |t|
    ensures forall i | 0 <= i < |t| :: tr[i] == WriteFrame(WriteAddress(t[i].reg), t[i].value)
  {
    if t == [] then [] else [WriteFrame(WriteAddress(t[0].reg), t[0].value)] + TableWrites(t[1..])
  }

  /** The log after replaying table `t`. */
  function Replay(h: Log, t: seq<Entry>): (l: Log)
    ensures Emits(h, l) && |l| == |h| + |t|
  {
    h + TableWrites(t)
  }

  /** Replaying one more entry is one more register write. */
  lemma {:induction false} ReplaySnoc(h: Log, t: seq<Entry>, e: Entry)
    ensures Replay(h, t + [e]) == WriteReg(Replay(h, t), e.reg, e.value)
  {
    var a, b := Replay(h, t + [e]), WriteReg(Replay(h, t), e.reg, e.value);
    assert |a| == |b|;
    forall i | 0 <= i < |a| ensures a[i] == b[i] {
      if i >= |h| {
        assert (t + [e])[i - |h|] == if i - |h| < |t| then t[i - |h|] else e;
      }
    }
  }

  // ---------------------------------------------------------------------------
  // Optimisation routine

  /** The calibration block of the optimisation routine, run when register 0x73
      reads zero: read 0x70 and 0x71, write a fixed four-write preamble, then the
      two computed calibration bytes. */
  function CalibrationLog(m: Miso, h: Log): (l: Log)
    ensures Emits(h, l) && |l| == |h| + 8
  {
    var c1 := CalibrationC1(Answer(m, h, 0x70));
    var l1 := ReadReg(m, h, 0x70);
    var c2 := CalibrationC2(Answer(m, l1, 0x71));
    var l2 := ReadReg(m, l1, 0x71);
    var l3 := WriteReg(WriteReg(WriteReg(WriteReg(l2, 0x7F, 0x00), 0x61, 0xAD), 0x51, 0x70), 0x7F, 0x0E);
    WriteReg(WriteReg(l3, 0x70, c1 as bv8), 0x71, c2 as bv8)
  }

  /** The calibration block reads 0x70 then 0x71, writes the preamble, then
      writes C1 (in [14, 63]) to 0x70 and C2 (at most 114) to 0x71. */
  lemma CalibrationShape(m: Miso, h: Log)
    ensures var l := CalibrationLog(m, h);
      && l[..|h|] == h
      && l[|h|] == ReadFrame(ReadAddress(0x70), Answer(m, h, 0x70))
      && l[|h| + 1] == ReadFrame(ReadAddress(0x71), Answer(m, l[..|h| + 1], 0x71))
      && l[|h| + 2..|h| + 6] == [WriteFrame(WriteAddress(0x7F), 0x00), WriteFrame(WriteAddress(0x61), 0xAD),
                                 WriteFrame(WriteAddress(0x51), 0x70), WriteFrame(WriteAddress(0x7F), 0x0E)]
      && l[|h| + 6].WriteFrame? && l[|h| + 6].addr == WriteAddress(0x70)
      && l[|h| + 6].data as int == CalibrationC1(l[|h|].data)
      && l[|h| + 7].WriteFrame? && l[|h| + 7].addr == WriteAddress(0x71)
      && l[|h| + 7].data as int == CalibrationC2(l[|h| + 1].data)
      && 14 <= l[|h| + 6].data as int <= 63 && l[|h| + 7].data as int <= 114
  {
    var l := CalibrationLog(m, h);
    var r70 := ReadFrame(ReadAddress(0x70), Answer(m, h, 0x70));
    var r71 := ReadFrame(ReadAddress(0x71), Answer(m, h + [r70], 0x71));
    var c1, c2 := CalibrationC1(r70.data), CalibrationC2(r71.data);
    ByteValue(c1);
    ByteValue(c2);
    assert l == h + [r70, r71, WriteFrame(WriteAddress(0x7F), 0x00), WriteFrame(WriteAddress(0x61), 0xAD),
                     WriteFrame(WriteAddress(0x51), 0x70), WriteFrame(WriteAddress(0x7F), 0x0E),
                     WriteFrame(WriteAddress(0x70), c1 as bv8), WriteFrame(WriteAddress(0x71), c2 as bv8)];
    assert l[..|h| + 1] == h + [r70];
  }

  /** The value written to register 0x48 for a given reading of register 0x67. */
  function Reg48Value(reg67: bv8): (v: bv8)
    ensures v == 0x04 <==> reg67 & 0x80 == 0x80
    ensures v == 0x02 <==> reg67 & 0x80 != 0x80
  {
    if reg67 & 0x80 == 0x80 then 0x04 else 0x02
  }

  /** The bus log of the vendor optimisation routine. */
  function OptimisationLog(m: Miso, h: Log, tb: Tables): (l: Log)
    ensures Emits(h, l)
    ensures |l| == |h| + 97 || |l| == |h| + 105
  {
    var l1 := Replay(h, tb.t1);
    var r67 := Answer(m, l1, 0x67);
    var l2 := WriteReg(ReadReg(m, l1, 0x67), 0x48, Reg48Value(r67));
    var l3 := Replay(l2, tb.t2);
    var r73 := Answer(m, l3, 0x73);
    var l4 := ReadReg(m, l3, 0x73);
    var l5 := if r73 == 0x00 then CalibrationLog(m, l4) else l4;
    WriteReg(Replay(Replay(l5, tb.t3), tb.t4), 0x73, 0x00)
  }

  /** The optimisation routine replays table 1, reads 0x67 and writes 0x48
      (0x04 when bit 7 of 0x67 is set, else 0x02), replays table 2, reads 0x73,
      runs the calibration block exactly when 0x73 read zero, replays tables 3
      and 4, and ends by writing 0x00 to 0x73. */
  lemma OptimisationShape(m: Miso, h: Log, tb: Tables)
    ensures var l := OptimisationLog(m, h, tb);
      && l[..|h|] == h
      && l[|h|..|h| + 5] == TableWrites(tb.t1)
      && l[|h| + 5] == ReadFrame(ReadAddress(0x67), Answer(m, l[..|h| + 5], 0x67))
      && l[|h| + 6] == WriteFrame(WriteAddress(0x48), Reg48Value(l[|h| + 5].data))
      && l[|h| + 7..|h| + 12] == TableWrites(tb.t2)
      && l[|h| + 12] == ReadFrame(ReadAddress(0x73), Answer(m, l[..|h| + 12], 0x73))
      && (|l| == |h| + 105 <==> l[|h| + 12].data == 0x00)
      && (|l| == |h| + 105 ==> l[..|h| + 21] == CalibrationLog(m, l[..|h| + 13]))
      && l[|l| - 84..|l| - 17] == TableWrites(tb.t3)
      && l[|l| - 17..|l| - 1] == TableWrites(tb.t4)
      && l[|l| - 1] == WriteFrame(WriteAddress(0x73), 0x00)
  {
    var l := OptimisationLog(m, h, tb);
    var l1 := Replay(h, tb.t1);
    var l3 := Replay(WriteReg(ReadReg(m, l1, 0x67), 0x48, Reg48Value(Answer(m, l1, 0x67))), tb.t2);
    var l4 := ReadReg(m, l3, 0x73);
    var l5 := if Answer(m, l3, 0x73) == 0x00 then CalibrationLog(m, l4) else l4;
    var w3, w4 := TableWrites(tb.t3), TableWrites(tb.t4);
    var f := WriteFrame(WriteAddress(0x73), 0x00);
    OptimisationHead(m, h, tb);
    assert l == l5 + w3 + w4 + [f];
    assert l[..|l4|] == l4 by {
      assert l[..|l5|] == l5;
      PrefixAgrees(l5, l, |l4|);
    }
    assert l[..|h|] == h && l[..|h| + 5] == l1 && l[..|h| + 12] == l3 by {
      PrefixAgrees(l4, l, |h|);
      PrefixAgrees(l4, l, |h| + 5);
      PrefixAgrees(l4, l, |h| + 12);
    }
    assert l[|h|..|h| + 5] == l4[|h|..|h| + 5] && l[|h| + 7..|h| + 12] == l4[|h| + 7..|h| + 12];
    assert l[|h| + 5] == l4[|h| + 5] && l[|h| + 6] == l4[|h| + 6] && l[|h| + 12] == l4[|h| + 12];
    if Answer(m, l3, 0x73) == 0x00 {
      assert l[..|h| + 21] == l5;
    }
  }

  /** The routine's first thirteen transactions: table 1, the read of 0x67, the
      write of 0x48, table 2 and the read of 0x73. */
  lemma OptimisationHead(m: Miso, h: Log, tb: Tables)
    ensures var l1 := Replay(h, tb.t1);
            var l3 := Replay(WriteReg(ReadReg(m, l1, 0x67), 0x48, Reg48Value(Answer(m, l1, 0x67))), tb.t2);
            var l4 := ReadReg(m, l3, 0x73);
      && |l4| == |h| + 13 && l4[..|h|] == h && l4[..|h| + 5] == l1 && l4[..|h| + 12] == l3
      && l4[|h|..|h| + 5] == TableWrites(tb.t1)
      && l4[|h| + 5] == ReadFrame(ReadAddress(0x67), Answer(m, l1, 0x67))
      && l4[|h| + 6] == WriteFrame(WriteAddress(0x48), Reg48Value(l4[|h| + 5].data))
      && l4[|h| + 7..|h| + 12] == TableWrites(tb.t2)
      && l4[|h| + 12] == ReadFrame(ReadAddress(0x73), Answer(m, l3, 0x73))
  {
    var l1 := Replay(h, tb.t1);
    var l2 := WriteReg(ReadReg(m, l1, 0x67), 0x48, Reg48Value(Answer(m, l1, 0x67)));
    var l3 := Replay(l2, tb.t2);
    var l4 := ReadReg(m, l3, 0x73);
    assert l4 == l1 + [l2[|h| + 5], l2[|h| + 6]] + TableWrites(tb.t2) + [l4[|l3|]];
    assert l4[..|h| + 5] == l1;
    assert l4[..|h| + 12] == l3;
  }

  // ---------------------------------------------------------------------------
  // Power lifecycle

  /** The six reads that drain the motion registers after the identity check
      (the high X register is read twice, as the driver does). */
  function DrainLog(m: Miso, h: Log, regs: RegisterMap): (l: Log)
    ensures Emits(h, l) && |l| == |h| + 6
    ensures forall i | |h| <= i < |l| :: l[i].ReadFrame?
  {
    var l1 := ReadReg(m, h, regs.motion);
    var l2 := ReadReg(m, l1, regs.deltaXL);
    var l3 := ReadReg(m, l2, regs.deltaXH);
    var l4 := ReadReg(m, l3, regs.deltaYL);
    var l5 := ReadReg(m, l4, regs.deltaYH);
    ReadReg(m, l5, regs.deltaXH)
  }

  /** The drain reads the motion register, X low, X high, Y low, Y high and X
      high again, in that order, each answered after the reads before it. */
  lemma DrainShape(m: Miso, h: Log, regs: RegisterMap)
    ensures var l := DrainLog(m, h, regs);
      && l[..|h|] == h
      && l[|h|] == ReadFrame(ReadAddress(regs.motion), Answer(m, h, regs.motion))
      && l[|h| + 1] == ReadFrame(ReadAddress(regs.deltaXL), Answer(m, l[..|h| + 1], regs.deltaXL))
      && l[|h| + 2] == ReadFrame(ReadAddress(regs.deltaXH), Answer(m, l[..|h| + 2], regs.deltaXH))
      && l[|h| + 3] == ReadFrame(ReadAddress(regs.deltaYL), Answer(m, l[..|h| + 3], regs.deltaYL))
      && l[|h| + 4] == ReadFrame(ReadAddress(regs.deltaYH), Answer(m, l[..|h| + 4], regs.deltaYH))
      && l[|h| + 5] == ReadFrame(ReadAddress(regs.deltaXH), Answer(m, l[..|h| + 5], regs.deltaXH))
  {
    var l1 := ReadReg(m, h, regs.motion);
    var l2 := ReadReg(m, l1, regs.deltaXL);
    var l3 := ReadReg(m, l2, regs.deltaXH);
    var l4 := ReadReg(m, l3, regs.deltaYL);
    var l5 := ReadReg(m, l4, regs.deltaYH);
    var l6 := ReadReg(m, l5, regs.deltaXH);
    assert DrainLog(m, h, regs) == l6;
    PrefixAgrees(l5, l6, |h| + 4);
    PrefixAgrees(l4, l6, |h| + 3);
    PrefixAgrees(l3, l6, |h| + 2);
    PrefixAgrees(l2, l6, |h| + 1);
  }

  /** Power-up: write the reset code, read both identity registers, stop unless
      the product ID is 0x49 or the inverse product ID is 0xB6, otherwise drain
      the motion registers, run the optimisation routine and leave shutdown. */
  function PowerUp(s: DriverState, m: Miso, h: Log, regs: RegisterMap, tb: Tables): (o: Outcome<bool>)
    ensures Emits(h, o.log)
    ensures !o.value ==> o.state == s && |o.log| == |h| + 3
    ensures o.value ==> o.state == s.(shutdown := false) && |o.log| >= |h| + 9 + 97
  {
    var l1 := WriteReg(h, regs.powerUpReset, 0x5A);
    var productId := Answer(m, l1, regs.productId);
    var l2 := ReadReg(m, l1, regs.productId);
    var inverseId := Answer(m, l2, regs.inverseProductId);
    var l3 := ReadReg(m, l2, regs.inverseProductId);
    if productId != 0x49 && inverseId != 0xB6 then
      Outcome(false, s, l3)
    else
      var l4 := DrainLog(m, l3, regs);
      EmitsTransitive(h, l3, l4);
      EmitsTransitive(h, l4, OptimisationLog(m, l4, tb));
      Outcome(true, s.(shutdown := false), OptimisationLog(m, l4, tb))
  }

  /** Power-up always starts with the reset write and the two identity reads;
      it fails exactly when both identity bytes are wrong; when it succeeds the
      six drain reads follow and then the optimisation routine. */
  lemma PowerUpShape(s: DriverState, m: Miso, h: Log, regs: RegisterMap, tb: Tables)
    ensures var o := PowerUp(s, m, h, regs, tb); var l := o.log;
      && l[..|h|] == h
      && l[|h|] == WriteFrame(WriteAddress(regs.powerUpReset), 0x5A)
      && l[|h| + 1] == ReadFrame(ReadAddress(regs.productId), Answer(m, l[..|h| + 1], regs.productId))
      && l[|h| + 2] == ReadFrame(ReadAddress(regs.inverseProductId), Answer(m, l[..|h| + 2], regs.inverseProductId))
      && (!o.value <==> l[|h| + 1].data != 0x49 && l[|h| + 2].data != 0xB6)
      && (o.value ==>
            && l[|h| + 3..|h| + 9] == DrainLog(m, l[..|h| + 3], regs)[|h| + 3..]
            && l == OptimisationLog(m, l[..|h| + 9], tb))
  {
    var o := PowerUp(s, m, h, regs, tb);
    var l := o.log;
    var l1 := WriteReg(h, regs.powerUpReset, 0x5A);
    var l2 := ReadReg(m, l1, regs.productId);
    var l3 := ReadReg(m, l2, regs.inverseProductId);
    var f0 := WriteFrame(WriteAddress(regs.powerUpReset), 0x5A);
    var f1 := ReadFrame(ReadAddress(regs.productId), Answer(m, l1, regs.productId));
    var f2 := ReadFrame(ReadAddress(regs.inverseProductId), Answer(m, l2, regs.inverseProductId));
    PowerUpPrefix(s, m, h, regs, tb);
    assert l[..|h| + 1] == l1 && l[..|h| + 2] == l2 && l[|h|] == f0 && l[|h| + 1] == f1 && l[|h| + 2] == f2 by {
      assert l3 == h + [f0, f1, f2];
      PrefixAgrees(l3, l, |h| + 1);
      PrefixAgrees(l3, l, |h| + 2);
      assert l[|h|] == l3[|h|] && l[|h| + 1] == l3[|h| + 1] && l[|h| + 2] == l3[|h| + 2];
    }
  }

  /** Power-up begins with the identity check, and when it succeeds continues
      with the drain reads and the optimisation routine. */
  lemma PowerUpPrefix(s: DriverState, m: Miso, h: Log, regs: RegisterMap, tb: Tables)
    ensures var l3 := ReadReg(m, ReadReg(m, WriteReg(h, regs.powerUpReset, 0x5A), regs.productId), regs.inverseProductId);
            var o := PowerUp(s, m, h, regs, tb);
      && |l3| <= |o.log| && o.log[..|l3|] == l3
      && (!o.value <==> l3[|h| + 1].data != 0x49 && l3[|h| + 2].data != 0xB6)
      && (o.value ==>
            && o.log[|h| + 3..|h| + 9] == DrainLog(m, l3, regs)[|h| + 3..]
            && o.log == OptimisationLog(m, o.log[..|h| + 9], tb))
  {
    var o := PowerUp(s, m, h, regs, tb);
    var l := o.log;
    var l1 := WriteReg(h, regs.powerUpReset, 0x5A);
    var l2 := ReadReg(m, l1, regs.productId);
    var l3 := ReadReg(m, l2, regs.inverseProductId);
    if o.value {
      var l4 := DrainLog(m, l3, regs);
      OptimisationShape(m, l4, tb);
      assert l[..|l4|] == l4;
      assert l[..|l3|] == l3 by { PrefixAgrees(l4, l, |l3|); }
      assert l[|h| + 3..|h| + 9] == l4[|l3|..];
    }
  }

  /** The identity check as written accepts a device whose product ID is wrong,
      as long as its inverse product ID reads 0xB6 (and vice versa). */
  lemma IdentityCheckIsPermissive(s: DriverState, h: Log, regs: RegisterMap, tb: Tables)
    ensures var m: Miso := (_, _, _) => 0xB6;
            var o := PowerUp(s, m, h, regs, tb);
            o.value && o.log[|h| + 1].data != 0x49
  {
    var m: Miso := (_, _, _) => 0xB6;
    PowerUpShape(s, m, h, regs, tb);
  }

  /** Power-down: write 0xB6 to the shutdown register and set the shutdown flag. */
  function PowerDown(s: DriverState, h: Log, regs: RegisterMap): (o: Outcome<bool>)
    ensures o.value && o.state == s.(shutdown := true)
    ensures Emits(h, o.log) && o.log == h + [WriteFrame(WriteAddress(regs.shutdown), 0xB6)]
  {
    Outcome(true, s.(shutdown := true), WriteReg(h, regs.shutdown, 0xB6))
  }

  // ---------------------------------------------------------------------------
  // Calibration and configuration

  /** Lowest and highest working heights, in millimetres, the driver accepts. */
  const MinHeight: real := 12.5
  const MaxHeight: real := 37.5

  /** Setting the working height: ignored while shut down or outside
      [12.5, 37.5] mm; otherwise CPI becomes 11.914 / (height in metres) and the
      calibration flag is set. */
  function SetWorkingHeight(s: DriverState, height: real): (t: DriverState)
    ensures t.shutdown == s.shutdown
    ensures t.cpiSet == (s.cpiSet || (!s.shutdown && MinHeight <= height <= MaxHeight))
    ensures s.shutdown || height < MinHeight || height > MaxHeight ==> t == s
    ensures !s.shutdown && MinHeight <= height <= MaxHeight ==> t.cpi * height == 11914.0 && t.cpi > 0.0
  {
    if s.shutdown then s
    else if height < MinHeight || height > MaxHeight then s
    else
      var metres := height / 1000.0;
      s.(cpi := 11.914 * (1.0 / metres), cpiSet := true)
  }

  /** Setting CPI directly changes the CPI value only: not the calibration flag,
      and regardless of shutdown. */
  function SetCpi(s: DriverState, cpi: real): (t: DriverState)
    ensures t.cpi == cpi
    ensures t.shutdown == s.shutdown && t.cpiSet == s.cpiSet
  {
    s.(cpi := cpi)
  }

  /** Setting the resolution writes the clamped value, whatever the state. */
  function SetResolution(h: Log, regs: RegisterMap, resolution: bv8): (l: Log)
    ensures Emits(h, l) && |l| == |h| + 1
    ensures l[|h|].WriteFrame? && l[|h|].addr == WriteAddress(regs.resolution)
    ensures l[|h|].data <= MaxResolution
    ensures resolution <= MaxResolution ==> l[|h|].data == resolution
    ensures resolution > MaxResolution ==> l[|h|].data == MaxResolution
  {
    WriteReg(h, regs.resolution, ClampResolution(resolution))
  }

  /** Setting the orientation writes the orientation byte, unless shut down. */
  function SetOrientation(s: DriverState, h: Log, regs: RegisterMap, invertX: bool, invertY: bool, swapXY: bool): (l: Log)
    ensures Emits(h, l)
    ensures s.shutdown ==> l == h
    ensures !s.shutdown ==> |l| == |h| + 1 && l[|h|].addr == WriteAddress(regs.orientation) &&
                            OrientationFlags(l[|h|].data) == (invertX, invertY, swapXY) && l[|h|].data & 0x1F == 0
  {
    if s.shutdown then h
    else
      OrientationRoundTrip(invertX, invertY, swapXY, 0);
      WriteReg(h, regs.orientation, OrientationByte(invertX, invertY, swapXY))
  }

  // ---------------------------------------------------------------------------
  // Readings

  /** The surface-quality figure: -99 while shut down, otherwise four times the
      SQUAL register, read once. */
  function GetSqual(s: DriverState, m: Miso, h: Log, regs: RegisterMap): (o: Outcome<int>)
    ensures o.state == s && Emits(h, o.log)
    ensures o.value == -99 <==> s.shutdown
    ensures s.shutdown ==> o.log == h
    ensures !s.shutdown ==> |o.log| == |h| + 1 && o.log[|h|] == ReadFrame(ReadAddress(regs.squal), Answer(m, h, regs.squal))
    ensures !s.shutdown ==> 0 <= o.value <= 1020 && o.value == 4 * Answer(m, h, regs.squal) as int
  {
    if s.shutdown then Outcome(-99, s, h)
    else Outcome(SqualFigure(Answer(m, h, regs.squal)), s, ReadReg(m, h, regs.squal))
  }

  /** The observation register, read whatever the state. */
  function GetObservation(s: DriverState, m: Miso, h: Log, regs: RegisterMap): (o: Outcome<bv8>)
    ensures o.state == s && Emits(h, o.log) && |o.log| == |h| + 1
    ensures o.log[|h|] == ReadFrame(ReadAddress(regs.observation), o.value)
    ensures o.value == m(h, ReadAddress(regs.observation), 0)
  {
    Outcome(Answer(m, h, regs.observation), s, ReadReg(m, h, regs.observation))
  }

  /** The sample carried by the delta, SQUAL and shutter bytes, shared by both
      motion-read strategies: none when the quality gate fails, otherwise the
      signed X and Y words. */
  function DeltaSample(xl: bv8, xh: bv8, yl: bv8, yh: bv8, squal: bv8, shutter: bv8): (r: Motion)
    ensures r == NoSample <==> !QualityAccepted(squal, shutter)
    ensures r.Sample? ==> -0x8000 <= r.dx < 0x8000 && -0x8000 <= r.dy < 0x8000
  {
    if !QualityAccepted(squal, shutter) then NoSample
    else Sample(Int16Of(xh, xl), Int16Of(yh, yl))
  }

  /** No information is lost: the bytes a sample came from are the
      two's-complement bytes of its counts. */
  lemma {:induction false} DeltaSampleBytes(xl: bv8, xh: bv8, yl: bv8, yh: bv8, squal: bv8, shutter: bv8)
    ensures var r := DeltaSample(xl, xh, yl, yh, squal, shutter);
      r.Sample? ==> HighByte(r.dx) == xh && LowByte(r.dx) == xl && HighByte(r.dy) == yh && LowByte(r.dy) == yl
  {
    BytesOfInt16(xh, xl);
    BytesOfInt16(yh, yl);
  }

  /** Discrete motion read: read the motion register; with its bit 7 clear the
      result is a zero sample; otherwise read the four delta registers, SQUAL and
      the shutter register, reject the sample if the quality gate fails, else
      assemble the signed deltas. */
  function MotionRead(s: DriverState, m: Miso, h: Log, regs: RegisterMap): (o: Outcome<Motion>)
    ensures o.state == s && Emits(h, o.log)
    ensures s.shutdown ==> o.value == NoSample && o.log == h
    ensures o.value.Sample? ==> -0x8000 <= o.value.dx < 0x8000 && -0x8000 <= o.value.dy < 0x8000
  {
    if s.shutdown then Outcome(NoSample, s, h)
    else
      var motion := Answer(m, h, regs.motion);
      var l0 := ReadReg(m, h, regs.motion);
      if motion & 0x80 != 0x80 then Outcome(Sample(0, 0), s, l0)
      else
        var xl := Answer(m, l0, regs.deltaXL);
        var l1 := ReadReg(m, l0, regs.deltaXL);
        var xh := Answer(m, l1, regs.deltaXH);
        var l2 := ReadReg(m, l1, regs.deltaXH);
        var yl := Answer(m, l2, regs.deltaYL);
        var l3 := ReadReg(m, l2, regs.deltaYL);
        var yh := Answer(m, l3, regs.deltaYH);
        var l4 := ReadReg(m, l3, regs.deltaYH);
        var squal := Answer(m, l4, regs.squal);
        var l5 := ReadReg(m, l4, regs.squal);
        var shutter := Answer(m, l5, regs.shutterLower);
        var l6 := ReadReg(m, l5, regs.shutterLower);
        EmitsTransitive(h, l0, l1);
        EmitsTransitive(h, l1, l2);
        EmitsTransitive(h, l2, l3);
        EmitsTransitive(h, l3, l4);
        EmitsTransitive(h, l4, l5);
        EmitsTransitive(h, l5, l6);
        Outcome(DeltaSample(xl, xh, yl, yh, squal, shutter), s, l6)
  }

  /** A discrete read that is not shut down reads the motion register first;
      with bit 7 clear it stops there with a zero sample; otherwise it makes six
      more reads and the sample is rejected exactly when the quality gate fails
      on the fifth and sixth, and is made of the signed words the first four
      form. */
  lemma MotionReadShape(s: DriverState, m: Miso, h: Log, regs: RegisterMap)
    requires !s.shutdown
    ensures var o := MotionRead(s, m, h, regs); var l := o.log;
      && l[..|h|] == h
      && l[|h|] == ReadFrame(ReadAddress(regs.motion), Answer(m, h, regs.motion))
      && (l[|h|].data & 0x80 != 0x80 ==> o.value == Sample(0, 0) && |l| == |h| + 1)
      && (l[|h|].data & 0x80 == 0x80 ==>
            && |l| == |h| + 7
            && (forall i | |h| < i < |l| :: l[i].ReadFrame?)
            && l[|h| + 1] == ReadFrame(ReadAddress(regs.deltaXL), Answer(m, l[..|h| + 1], regs.deltaXL))
            && l[|h| + 2] == ReadFrame(ReadAddress(regs.deltaXH), Answer(m, l[..|h| + 2], regs.deltaXH))
            && l[|h| + 3] == ReadFrame(ReadAddress(regs.deltaYL), Answer(m, l[..|h| + 3], regs.deltaYL))
            && l[|h| + 4] == ReadFrame(ReadAddress(regs.deltaYH), Answer(m, l[..|h| + 4], regs.deltaYH))
            && l[|h| + 5] == ReadFrame(ReadAddress(regs.squal), Answer(m, l[..|h| + 5], regs.squal))
            && l[|h| + 6] == ReadFrame(ReadAddress(regs.shutterLower), Answer(m, l[..|h| + 6], regs.shutterLower))
            && (o.value == NoSample <==> !QualityAccepted(l[|h| + 5].data, l[|h| + 6].data))
            && (o.value.Sample? ==>
                  o.value == Sample(Int16Of(l[|h| + 2].data, l[|h| + 1].data), Int16Of(l[|h| + 4].data, l[|h| + 3].data))))
  {
    var o := MotionRead(s, m, h, regs);
    var l0 := ReadReg(m, h, regs.motion);
    if Answer(m, h, regs.motion) & 0x80 == 0x80 {
      var l := o.log;
      var l1 := ReadReg(m, l0, regs.deltaXL);
      var l2 := ReadReg(m, l1, regs.deltaXH);
      var l3 := ReadReg(m, l2, regs.deltaYL);
      var l4 := ReadReg(m, l3, regs.deltaYH);
      var l5 := ReadReg(m, l4, regs.squal);
      assert l == ReadReg(m, l5, regs.shutterLower);
      assert l[..|h| + 1] == l0 && l[..|h| + 2] == l1 && l[..|h| + 3] == l2;
      assert l[..|h| + 4] == l3 && l[..|h| + 5] == l4 && l[..|h| + 6] == l5;
    }
  }

  /** The twelve bytes the sensor sends in a burst read started after log `h`. */
  function BurstPayload(m: Miso, h: Log, addr: bv8): (p: seq<bv8>)
    ensures |p| == 12 && forall j | 0 <= j < 12 :: p[j] == m(h, addr, j)
  {
    seq(12, j requires 0 <= j => m(h, addr, j))
  }

  /** The sample a burst payload carries: the delta bytes are 2 to 5, SQUAL is
      byte 6 and the shutter byte is byte 10. */
  function BurstSample(p: seq<bv8>): (r: Motion)
    requires |p| == 12
    ensures r == NoSample <==> !QualityAccepted(p[6], p[10])
    ensures r.Sample? ==> r == Sample(Int16Of(p[3], p[2]), Int16Of(p[5], p[4]))
  {
    DeltaSample(p[2], p[3], p[4], p[5], p[6], p[10])
  }

  /** Burst motion read: one burst transaction of twelve bytes; the sample is
      rejected when the quality gate fails on bytes 6 and 10, otherwise X comes
      from bytes 3 and 2 and Y from bytes 5 and 4. */
  function BurstMotionRead(s: DriverState, m: Miso, h: Log, regs: RegisterMap): (o: Outcome<Motion>)
    ensures o.state == s && Emits(h, o.log)
    ensures s.shutdown ==> o.value == NoSample && o.log == h
    ensures !s.shutdown ==>
      && |o.log| == |h| + 1
      && o.log[|h|] == BurstFrame(ReadAddress(regs.motionBurst), BurstPayload(m, h, ReadAddress(regs.motionBurst)))
      && var p := o.log[|h|].payload;
         && (o.value == NoSample <==> !QualityAccepted(p[6], p[10]))
         && (o.value.Sample? ==> o.value == Sample(Int16Of(p[3], p[2]), Int16Of(p[5], p[4])))
    ensures o.value.Sample? ==> -0x8000 <= o.value.dx < 0x8000 && -0x8000 <= o.value.dy < 0x8000
  {
    if s.shutdown then Outcome(NoSample, s, h)
    else
      var addr := ReadAddress(regs.motionBurst);
      var p := BurstPayload(m, h, addr);
      Outcome(BurstSample(p), s, h + [BurstFrame(addr, p)])
  }

  /** Distance by discrete read: fails without bus traffic unless powered up and
      calibrated from a working height; otherwise it is the discrete read. */
  function GetDistance(s: DriverState, m: Miso, h: Log, regs: RegisterMap): (o: Outcome<Motion>)
    ensures o.state == s && Emits(h, o.log)
    ensures s.shutdown || !s.cpiSet ==> o.value == NoSample && o.log == h
    ensures !s.shutdown && s.cpiSet ==> o == MotionRead(s, m, h, regs)
  {
    if s.shutdown || !s.cpiSet then Outcome(NoSample, s, h) else MotionRead(s, m, h, regs)
  }

  /** Distance by burst read, gated like `GetDistance`. */
  function GetDistanceBurst(s: DriverState, m: Miso, h: Log, regs: RegisterMap): (o: Outcome<Motion>)
    ensures o.state == s && Emits(h, o.log)
    ensures s.shutdown || !s.cpiSet ==> o.value == NoSample && o.log == h
    ensures !s.shutdown && s.cpiSet ==> o == BurstMotionRead(s, m, h, regs)
  {
    if s.shutdown || !s.cpiSet then Outcome(NoSample, s, h) else BurstMotionRead(s, m, h, regs)
  }

  // ---------------------------------------------------------------------------
  // Sessions: sequences of public operations

  /** A call of one of the driver's public operations. */
  datatype Op =
    | PowerUpOp
    | PowerDownOp
    | SetWorkingHeightOp(height: real)
    | SetCpiOp(cpi: real)
    | SetResolutionOp(resolution: bv8)
    | SetOrientationOp(invertX: bool, invertY: bool, swapXY: bool)
    | GetSqualOp
    | GetObservationOp
    | MotionReadOp
    | BurstMotionReadOp
    | GetDistanceOp
    | GetDistanceBurstOp

  /** The state and bus log after one operation. */
  function Step(s: DriverState, m: Miso, h: Log, regs: RegisterMap, tb: Tables, op: Op): (r: (DriverState, Log))
    ensures Emits(h, r.1)
  {
    match op
    case PowerUpOp => var o := PowerUp(s, m, h, regs, tb); (o.state, o.log)
    case PowerDownOp => var o := PowerDown(s, h, regs); (o.state, o.log)
    case SetWorkingHeightOp(height) => (SetWorkingHeight(s, height), h)
    case SetCpiOp(cpi) => (SetCpi(s, cpi), h)
    case SetResolutionOp(resolution) => (s, SetResolution(h, regs, resolution))
    case SetOrientationOp(x, y, swap) => (s, SetOrientation(s, h, regs, x, y, swap))
    case GetSqualOp => (s, GetSqual(s, m, h, regs).log)
    case GetObservationOp => (s, GetObservation(s, m, h, regs).log)
    case MotionReadOp => (s, MotionRead(s, m, h, regs).log)
    case BurstMotionReadOp => (s, BurstMotionRead(s, m, h, regs).log)
    case GetDistanceOp => (s, GetDistance(s, m, h, regs).log)
    case GetDistanceBurstOp => (s, GetDistanceBurst(s, m, h, regs).log)
  }

  /** The state and bus log after a sequence of operations. */
  function Run(s: DriverState, m: Miso, h: Log, regs: RegisterMap, tb: Tables, ops: seq<Op>): (DriverState, Log)
    decreases |ops|
  {
    if ops == [] then (s, h)
    else
      var r := Step(s, m, h, regs, tb, ops[0]);
      Run(r.0, m, r.1, regs, tb, ops[1..])
  }

  /** Whatever the operations, every transaction the driver puts on the bus uses
      the address convention of its direction. */
  lemma {:induction false} RunEmits(s: DriverState, m: Miso, h: Log, regs: RegisterMap, tb: Tables, ops: seq<Op>)
    ensures Emits(h, Run(s, m, h, regs, tb, ops).1)
    decreases |ops|
  {
    if ops != [] {
      var r := Step(s, m, h, regs, tb, ops[0]);
      RunEmits(r.0, m, r.1, regs, tb, ops[1..]);
      EmitsTransitive(h, r.1, Run(s, m, h, regs, tb, ops).1);
    }
  }

  /** Once calibrated, the driver stays calibrated: no operation clears the flag. */
  lemma {:induction false} CalibrationPersists(s: DriverState, m: Miso, h: Log, regs: RegisterMap, tb: Tables, ops: seq<Op>)
    requires s.cpiSet
    ensures Run(s, m, h, regs, tb, ops).0.cpiSet
    decreases |ops|
  {
    if ops != [] {
      var r := Step(s, m, h, regs, tb, ops[0]);
      CalibrationPersists(r.0, m, r.1, regs, tb, ops[1..]);
    }
  }

  /** `op` is a working-height call the driver accepts in state `s`: not shut
      down and with a height in range. */
  predicate Calibrates(s: DriverState, op: Op) {
    op.SetWorkingHeightOp? && !s.shutdown && MinHeight <= op.height <= MaxHeight
  }

  /** Only an accepted working-height call calibrates: setting CPI directly does
      not, nor does a height call that is out of range or made while shut down,
      so until one is accepted every distance query fails. */
  lemma {:induction false} DistanceNeedsHeight(s: DriverState, m: Miso, h: Log, regs: RegisterMap, tb: Tables, ops: seq<Op>)
    requires !s.cpiSet
    requires forall i | 0 <= i < |ops| :: !Calibrates(Run(s, m, h, regs, tb, ops[..i]).0, ops[i])
    ensures var r := Run(s, m, h, regs, tb, ops);
      && !r.0.cpiSet
      && GetDistance(r.0, m, r.1, regs).value == NoSample
      && GetDistanceBurst(r.0, m, r.1, regs).value == NoSample
    decreases |ops|
  {
    if ops != [] {
      var r := Step(s, m, h, regs, tb, ops[0]);
      assert !Calibrates(Run(s, m, h, regs, tb, ops[..0]).0, ops[0]);
      forall i | 0 <= i < |ops| - 1
        ensures !Calibrates(Run(r.0, m, r.1, regs, tb, ops[1..][..i]).0, ops[1..][i])
      {
        assert ops[..i + 1][1..] == ops[1..][..i];
        assert !Calibrates(Run(s, m, h, regs, tb, ops[..i + 1]).0, ops[i + 1]);
      }
      DistanceNeedsHeight(r.0, m, r.1, regs, tb, ops[1..]);
    }
  }

  /** The operations that do nothing on the bus and keep the flags while shut
      down (setting CPI still changes the CPI value). */
  predicate GatedByShutdown(op: Op) {
    !(op.PowerUpOp? || op.PowerDownOp? || op.SetResolutionOp? || op.GetObservationOp?)
  }

  /** While shut down, gated operations leave the bus silent and the device shut
      down and do not change the calibration flag. */
  lemma {:induction false} ShutdownIsQuiet(s: DriverState, m: Miso, h: Log, regs: RegisterMap, tb: Tables, ops: seq<Op>)
    requires s.shutdown
    requires forall i | 0 <= i < |ops| :: GatedByShutdown(ops[i])
    ensures var r := Run(s, m, h, regs, tb, ops);
      r.1 == h && r.0.shutdown && r.0.cpiSet == s.cpiSet
    decreases |ops|
  {
    if ops != [] {
      var r := Step(s, m, h, regs, tb, ops[0]);
      ShutdownIsQuiet(r.0, m, r.1, regs, tb, ops[1..]);
    }
  }
}
