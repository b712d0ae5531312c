/** The driver's register helpers over a chip whose 256 registers live in an
    array: each `Si5351_Get*` reads bytes and decodes them, each `Si5351_Set*`
    reads a byte, merges the new field into it and writes it back. A method's
    contract ties the register image it leaves to the RegisterMap function
    of the old image, so the round trips and frames proved there hold for the
    registers of a live device. */
module Device {
  import opened Si5351Types
  import opened Bytes
  import opened RegisterMap

  /** A driver handle (`Si5351_t`) bound to a chip. `hasRead` and `hasWrite`
      say whether the handle's tRead and tWrite callbacks are present; every
      helper checks the ones it calls before touching the chip. */
  class Si5351 {
    const cfg: Config
    const hasRead: bool
    const hasWrite: bool
    const regs: array<bv8>

    ghost predicate Valid() {
      regs.Length == 256 && ValidConfig(cfg)
    }

    /** The chip's registers as a value. */
    function Image(): RegFile
      requires Valid()
      reads regs
    {
      regs[..]
    }

    constructor (c: Config, canRead: bool, canWrite: bool, init: RegFile)
      requires ValidConfig(c)
      ensures Valid() && fresh(regs)
      ensures cfg == c && hasRead == canRead && hasWrite == canWrite
      ensures Image() == init
    {
      cfg := c;
      hasRead := canRead;
      hasWrite := canWrite;
      regs := new bv8[256](i requires 0 <= i < 256 => init[i]);
    }

    /* ---------------- the transport: tRead and tWrite ---------------- */

    method Read(a: nat) returns (v: bv8)
      requires Valid() && hasRead && a < 256
      ensures v == Image()[a]
    {
      v := regs[a];
    }

    method Write(a: nat, v: bv8)
      requires Valid() && hasWrite && a < 256
      modifies regs
      ensures Image() == old(Image())[a := v]
    {
      regs[a] := v;
    }

    /** The `for` loops of GetMSA, GetMSB, GetMS, GetSSP and GetVCXO: read
        `len` consecutive registers into a local buffer. */
    method ReadWindow(base: nat, len: nat) returns (v: seq<bv8>)
      requires Valid() && hasRead && base + len <= 256
      ensures v == Window(Image(), base, len)
    {
      var buf := new bv8[len];
      for i := 0 to len
        invariant forall j :: 0 <= j < i ==> buf[j] == Image()[base + j]
      {
        buf[i] := Read(base + i);
      }
      v := buf[..];
    }

    /** `(tRead(addr) >> shift) & mask` */
    method GetField(f: Field) returns (x: bv8)
      requires Valid() && hasRead && WellFormed(f)
      ensures x == ReadField(Image(), f) && x <= f.mask
    {
      var v := Read(f.addr);
      x := GetBits(v, f.shift, f.mask);
    }

    /** `tWrite(addr, (tRead(addr) & ~(mask << shift)) | ((x & mask) << shift))` */
    method SetField(f: Field, x: bv8)
      requires Valid() && hasRead && hasWrite && WellFormed(f)
      modifies regs
      ensures Image() == WriteField(old(Image()), f, x)
    {
      var v := Read(f.addr);
      Write(f.addr, PutBits(v, f.shift, f.mask, x));
    }

    /* ---------------- InitDevice ---------------- */

    /** Disable every output, power down every output driver, mask the
        interrupts. */
    method InitDevice() returns (valid: bool)
      requires Valid()
      modifies regs
      ensures valid == (hasRead && hasWrite)
      ensures Image() == if valid then InitImage(old(Image())) else old(Image())
    {
      valid := hasRead && hasWrite;
      if valid {
        Write(REG_OUTPUT_ENABLE, 0xFF);
        ghost var r1 := Image();
        for a := 0x10 to 0x18
          invariant Image() == Store(r1, 0x10, seq(a - 0x10, i => 0x80))
        {
          StoreExtend(r1, 0x10, seq(a - 0x10, i => 0x80), 0x80);
          assert seq(a - 0x10, i => 0x80) + [0x80] == seq(a + 1 - 0x10, i => 0x80);
          Write(a, 0x80);
        }
        Write(REG_MASK, 0xF0);
      }
    }

    /* ---------------- status, sticky status, interrupt mask ---------------- */

    method GetStatus(st0: Status) returns (valid: bool, st: Status)
      requires Valid()
      ensures valid == hasRead
      ensures st == if valid then StatusFromByte(cfg, st0, Image()[REG_STATUS]) else st0
    {
      valid := hasRead;
      st := st0;
      if valid {
        var v := Read(REG_STATUS);
        st := StatusFromByte(cfg, st0, v);
      }
    }

    method GetStickyStatus(st0: Status) returns (valid: bool, st: Status)
      requires Valid()
      ensures valid == hasRead
      ensures st == if valid then StatusFromByte(cfg, st0, Image()[REG_STICKY]) else st0
    {
      valid := hasRead;
      st := st0;
      if valid {
        var v := Read(REG_STICKY);
        st := StatusFromByte(cfg, st0, v);
      }
    }

    method SetStickyStatus(st: Status) returns (valid: bool)
      requires Valid()
      modifies regs
      ensures valid == hasWrite
      ensures Image() == if valid then old(Image())[REG_STICKY := StatusByte(cfg, st)] else old(Image())
    {
      valid := hasWrite;
      if valid {
        Write(REG_STICKY, StatusByte(cfg, st));
      }
    }

    method GetStatusMask(st0: Status) returns (valid: bool, st: Status)
      requires Valid()
      ensures valid == hasRead
      ensures st == if valid then StatusFromByte(cfg, st0, Image()[REG_MASK]) else st0
    {
      valid := hasRead;
      st := st0;
      if valid {
        var v := Read(REG_MASK);
        st := StatusFromByte(cfg, st0, v);
      }
    }

    method SetStatusMask(st: Status) returns (valid: bool)
      requires Valid()
      modifies regs
      ensures valid == hasWrite
      ensures Image() == if valid then old(Image())[REG_MASK := StatusByte(cfg, st)] else old(Image())
    {
      valid := hasWrite;
      if valid {
        Write(REG_MASK, StatusByte(cfg, st));
      }
    }

    /* ---------------- output enable (0x03) and OEB pin mask (0x09) ---------------- */

    method GetOutputEnable(d0: bv8) returns (valid: bool, d: bv8)
      requires Valid()
      ensures valid == hasRead
      ensures d == if valid then Image()[REG_OUTPUT_ENABLE] else d0
    {
      valid := hasRead;
      d := d0;
      if valid {
        d := Read(REG_OUTPUT_ENABLE);
      }
    }

    /** The mask is read back through GetOutputEnable, so both callbacks are needed. */
    method SetOutputEnable(m: bv8) returns (valid: bool)
      requires Valid()
      modifies regs
      ensures valid == (hasWrite && hasRead)
      ensures Image() == if valid then EnableOutputs(old(Image()), cfg, m) else old(Image())
    {
      valid := false;
      if hasWrite {
        var v;
        valid, v := GetOutputEnable(0);
        if valid {
          Write(REG_OUTPUT_ENABLE, v & !OutputMask(cfg, m));
        }
      }
    }

    method SetOutputDisable(m: bv8) returns (valid: bool)
      requires Valid()
      modifies regs
      ensures valid == (hasWrite && hasRead)
      ensures Image() == if valid then DisableOutputs(old(Image()), cfg, m) else old(Image())
    {
      valid := false;
      if hasWrite {
        var v;
        valid, v := GetOutputEnable(0);
        if valid {
          Write(REG_OUTPUT_ENABLE, v | OutputMask(cfg, m));
        }
      }
    }

    method GetOutputControlMask(m0: bv8) returns (valid: bool, m: bv8)
      requires Valid()
      ensures valid == hasRead
      ensures m == if valid then OutputMask(cfg, Image()[REG_OEB_MASK]) else m0
    {
      valid := hasRead;
      m := m0;
      if valid {
        var v := Read(REG_OEB_MASK);
        m := OutputMask(cfg, v);
      }
    }

    method SetOutputControlMask(m: bv8) returns (valid: bool)
      requires Valid()
      modifies regs
      ensures valid == hasWrite
      ensures Image() == if valid then old(Image())[REG_OEB_MASK := OutputMask(cfg, m)] else old(Image())
    {
      valid := hasWrite;
      if valid {
        Write(REG_OEB_MASK, OutputMask(cfg, m));
      }
    }

    /* ---------------- register 0x0F: CLKIN_DIV, PLLA_SRC, PLLB_SRC ---------------- */

    /** Compiled only for the Si5351C. */
    method GetClkinDiv(d0: TwoBit) returns (valid: bool, d: TwoBit)
      requires Valid() && cfg.chipType == 2
      ensures valid == hasRead
      ensures d == if valid then ReadField(Image(), ClkinDiv) as int else d0
    {
      valid := hasRead;
      d := d0;
      if valid {
        var x := GetField(ClkinDiv);
        d := x as int;
      }
    }

    method SetClkinDiv(d: TwoBit) returns (valid: bool)
      requires Valid() && cfg.chipType == 2
      modifies regs
      ensures valid == (hasRead && hasWrite)
      ensures Image() == if valid then WriteField(old(Image()), ClkinDiv, ToByte(d)) else old(Image())
    {
      valid := hasRead && hasWrite;
      if valid {
        SetField(ClkinDiv, ToByte(d));
      }
    }

    method GetPllASrc(src0: Bit) returns (valid: bool, src: Bit)
      requires Valid()
      ensures valid == hasRead
      ensures src == if valid then ReadField(Image(), PllASrc) as int else src0
    {
      valid := hasRead;
      src := src0;
      if valid {
        var x := GetField(PllASrc);
        src := x as int;
      }
    }

    method SetPllASrc(src: Bit) returns (valid: bool)
      requires Valid()
      modifies regs
      ensures valid == (hasRead && hasWrite)
      ensures Image() == if valid then WriteField(old(Image()), PllASrc, ToByte(src)) else old(Image())
    {
      valid := hasRead && hasWrite;
      if valid {
        SetField(PllASrc, ToByte(src));
      }
    }

    method GetPllBSrc(src0: Bit) returns (valid: bool, src: Bit)
      requires Valid()
      ensures valid == hasRead
      ensures src == if valid then ReadField(Image(), PllBSrc) as int else src0
    {
      valid := hasRead;
      src := src0;
      if valid {
        var x := GetField(PllBSrc);
        src := x as int;
      }
    }

    method SetPllBSrc(src: Bit) returns (valid: bool)
      requires Valid()
      modifies regs
      ensures valid == (hasRead && hasWrite)
      ensures Image() == if valid then WriteField(old(Image()), PllBSrc, ToByte(src)) else old(Image())
    {
      valid := hasRead && hasWrite;
      if valid {
        SetField(PllBSrc, ToByte(src));
      }
    }

    /* ---------------- registers 0x10 .. 0x17: CLKx control ---------------- */

    method GetClkPowerDown(n: nat, pd0: bool) returns (valid: bool, pd: bool)
      requires Valid()
      ensures valid == (hasRead && IsClkNo(cfg, n))
      ensures pd == if valid then ReadField(Image(), ClkPowerDown(n)) != 0 else pd0
    {
      valid := hasRead && IsClkNo(cfg, n);
      pd := pd0;
      if valid {
        var x := GetField(ClkPowerDown(n));
        pd := x != 0;
      }
    }

    method SetClkPowerDown(n: nat, pd: bool) returns (valid: bool)
      requires Valid()
      modifies regs
      ensures valid == (hasRead && hasWrite && IsClkNo(cfg, n))
      ensures Image() == if valid then WriteField(old(Image()), ClkPowerDown(n), BoolBit(pd)) else old(Image())
    {
      valid := hasRead && hasWrite && IsClkNo(cfg, n);
      if valid {
        SetField(ClkPowerDown(n), BoolBit(pd));
      }
    }

    method GetClkMsSource(n: nat, src0: Bit) returns (valid: bool, src: Bit)
      requires Valid()
      ensures valid == (hasRead && IsClkNo(cfg, n))
      ensures src == if valid then ReadField(Image(), ClkMsSource(n)) as int else src0
    {
      valid := hasRead && IsClkNo(cfg, n);
      src := src0;
      if valid {
        var x := GetField(ClkMsSource(n));
        src := x as int;
      }
    }

    method SetClkMsSource(n: nat, src: Bit) returns (valid: bool)
      requires Valid()
      modifies regs
      ensures valid == (hasRead && hasWrite && IsClkNo(cfg, n))
      ensures Image() == if valid then WriteField(old(Image()), ClkMsSource(n), ToByte(src)) else old(Image())
    {
      valid := hasRead && hasWrite && IsClkNo(cfg, n);
      if valid {
        SetField(ClkMsSource(n), ToByte(src));
      }
    }

    method GetClkInvert(n: nat, inv0: bool) returns (valid: bool, inv: bool)
      requires Valid()
      ensures valid == (hasRead && IsClkNo(cfg, n))
      ensures inv == if valid then ReadField(Image(), ClkInvert(n)) != 0 else inv0
    {
      valid := hasRead && IsClkNo(cfg, n);
      inv := inv0;
      if valid {
        var x := GetField(ClkInvert(n));
        inv := x != 0;
      }
    }

    method SetClkInvert(n: nat, inv: bool) returns (valid: bool)
      requires Valid()
      modifies regs
      ensures valid == (hasRead && hasWrite && IsClkNo(cfg, n))
      ensures Image() == if valid then WriteField(old(Image()), ClkInvert(n), BoolBit(inv)) else old(Image())
    {
      valid := hasRead && hasWrite && IsClkNo(cfg, n);
      if valid {
        SetField(ClkInvert(n), BoolBit(inv));
      }
    }

    method GetClkSrc(n: nat, src0: TwoBit) returns (valid: bool, src: TwoBit)
      requires Valid()
      ensures valid == (hasRead && IsClkNo(cfg, n))
      ensures src == if valid then ReadField(Image(), ClkSource(n)) as int else src0
    {
      valid := hasRead && IsClkNo(cfg, n);
      src := src0;
      if valid {
        var x := GetField(ClkSource(n));
        src := x as int;
      }
    }

    method SetClkSrc(n: nat, src: TwoBit) returns (valid: bool)
      requires Valid()
      modifies regs
      ensures valid == (hasRead && hasWrite && IsClkNo(cfg, n))
      ensures Image() == if valid then WriteField(old(Image()), ClkSource(n), ToByte(src)) else old(Image())
    {
      valid := hasRead && hasWrite && IsClkNo(cfg, n);
      if valid {
        SetField(ClkSource(n), ToByte(src));
      }
    }

    method GetClkIDrive(n: nat, drv0: TwoBit) returns (valid: bool, drv: TwoBit)
      requires Valid()
      ensures valid == (hasRead && IsClkNo(cfg, n))
      ensures drv == if valid then ReadField(Image(), ClkDrive(n)) as int else drv0
    {
      valid := hasRead && IsClkNo(cfg, n);
      drv := drv0;
      if valid {
        var x := GetField(ClkDrive(n));
        drv := x as int;
      }
    }

    method SetClkIDrive(n: nat, drv: TwoBit) returns (valid: bool)
      requires Valid()
      modifies regs
      ensures valid == (hasRead && hasWrite && IsClkNo(cfg, n))
      ensures Image() == if valid then WriteField(old(Image()), ClkDrive(n), ToByte(drv)) else old(Image())
    {
      valid := hasRead && hasWrite && IsClkNo(cfg, n);
      if valid {
        SetField(ClkDrive(n), ToByte(drv));
      }
    }

    /* ---------------- registers 0x18, 0x19: CLKx_DIS_STATE ---------------- */

    method GetClkDisableState(n: nat, st0: TwoBit) returns (valid: bool, st: TwoBit)
      requires Valid()
      ensures valid == (hasRead && IsClkNo(cfg, n))
      ensures st == if valid then ReadField(Image(), DisableState(n)) as int else st0
    {
      valid := hasRead && IsClkNo(cfg, n);
      st := st0;
      if valid {
        var x := GetField(DisableState(n));
        st := x as int;
      }
    }

    /** With the value shifted to the clock's own field (see
        RegisterMap.WriteDisableStateAsWritten for the shift the driver uses). */
    method SetClkDisableState(n: nat, st: TwoBit) returns (valid: bool)
      requires Valid()
      modifies regs
      ensures valid == (hasRead && hasWrite && IsClkNo(cfg, n))
      ensures Image() == if valid then WriteDisableState(old(Image()), n, st) else old(Image())
    {
      valid := hasRead && hasWrite && IsClkNo(cfg, n);
      if valid {
        SetField(DisableState(n), ToByte(st));
      }
    }

    /* ---------------- Multisynth parameters ---------------- */

    /** The eight parameter writes of SetMSA, SetMSB and SetMS, with byte 2
        read back and merged (`& ~0x3` for a feedback block, `& ~0x7F` for
        an output block). */
    method WriteParams(base: nat, ms: MS, output: bool)
      requires Valid() && hasRead && hasWrite && base + 8 <= 256
      modifies regs
      ensures Image() == Store(old(Image()), base, MsBlock(ms, if output then ClkByte2(old(Image())[base + 2], ms) else PllByte2(old(Image())[base + 2], ms)))
    {
      ghost var r := Image();
      Write(base, ByteOf(ms.p3 / 0x100));
      Write(base + 1, ByteOf(ms.p3));
      var b := Read(base + 2);
      var b2 := if output then ClkByte2(b, ms) else PllByte2(b, ms);
      Write(base + 2, b2);
      Write(base + 3, ByteOf(ms.p1 / 0x100));
      Write(base + 4, ByteOf(ms.p1));
      Write(base + 5, (ByteOf(ms.p3 / 0x1000) & 0xF0) | (ByteOf(ms.p2 / 0x10000) & 0x0F));
      Write(base + 6, ByteOf(ms.p2 / 0x100));
      Write(base + 7, ByteOf(ms.p2));
      StoreEight(r, base, MsBlock(ms, b2));
    }

    /** GetMSA and GetMSB: the flag, then the eight bytes of the block. */
    method GetFeedback(p: Pll, ms0: MS) returns (valid: bool, ms: MS)
      requires Valid()
      ensures valid == hasRead
      ensures ms == if valid then ReadMsPll(Image(), p) else ms0
    {
      valid := hasRead;
      ms := ms0;
      if valid {
        var flag := GetField(PllIntMode(p));
        var v := ReadWindow(PllBase(p), 8);
        ms := MsPllFromBytes(flag, v);
      }
    }

    method SetFeedback(p: Pll, ms: MS) returns (valid: bool)
      requires Valid()
      modifies regs
      ensures valid == (hasRead && hasWrite)
      ensures Image() == if valid then WriteMsPll(old(Image()), p, ms) else old(Image())
    {
      valid := hasRead && hasWrite;
      if valid {
        SetField(PllIntMode(p), BoolBit(ms.bInteger));
        WriteParams(PllBase(p), ms, false);
      }
    }

    method GetMSA(ms0: MS) returns (valid: bool, ms: MS)
      requires Valid()
      ensures valid == hasRead
      ensures ms == if valid then ReadMsPll(Image(), PllA) else ms0
    {
      valid, ms := GetFeedback(PllA, ms0);
    }

    method SetMSA(ms: MS) returns (valid: bool)
      requires Valid()
      modifies regs
      ensures valid == (hasRead && hasWrite)
      ensures Image() == if valid then WriteMsPll(old(Image()), PllA, ms) else old(Image())
    {
      valid := SetFeedback(PllA, ms);
    }

    method GetMSB(ms0: MS) returns (valid: bool, ms: MS)
      requires Valid()
      ensures valid == hasRead
      ensures ms == if valid then ReadMsPll(Image(), PllB) else ms0
    {
      valid, ms := GetFeedback(PllB, ms0);
    }

    method SetMSB(ms: MS) returns (valid: bool)
      requires Valid()
      modifies regs
      ensures valid == (hasRead && hasWrite)
      ensures Image() == if valid then WriteMsPll(old(Image()), PllB, ms) else old(Image())
    {
      valid := SetFeedback(PllB, ms);
    }

    method GetMS(n: nat, ms0: MS) returns (valid: bool, ms: MS)
      requires Valid()
      ensures valid == (hasRead && IsClkNo(cfg, n))
      ensures ms == if valid then ReadMsClk(Image(), n) else ms0
    {
      valid := hasRead && IsClkNo(cfg, n);
      ms := ms0;
      if valid {
        var flag: bv8 := 0;
        if n < 6 {
          flag := GetField(ClkIntMode(n));
        }
        var v := ReadWindow(MsBase(n), 8);
        ms := MsClkFromBytes(n, flag, v);
      }
    }

    /** With the integer flag stored in CLKn's own control register (see
        RegisterMap.WriteMsClkAsWritten for the register the driver uses). */
    method SetMS(n: nat, ms: MS) returns (valid: bool)
      requires Valid()
      modifies regs
      ensures valid == (hasRead && hasWrite && IsClkNo(cfg, n))
      ensures Image() == if valid then WriteMsClk(old(Image()), n, ms) else old(Image())
    {
      valid := hasRead && hasWrite && IsClkNo(cfg, n);
      if valid {
        if n < 6 {
          SetField(ClkIntMode(n), BoolBit(ms.bInteger));
        }
        WriteParams(MsBase(n), ms, true);
      }
    }

    /* ---------------- spread spectrum, registers 0x95 .. 0xA1 ---------------- */

    /** The driver never sets its result, so it reports failure even when it
        has read the flag. */
    method GetSSPEnable(en0: bool) returns (valid: bool, en: bool)
      requires Valid()
      ensures !valid
      ensures en == if hasRead then ReadField(Image(), SscEnable) != 0 else en0
    {
      valid := false;
      en := en0;
      if hasRead {
        var v := Read(SSP_BASE);
        en := v & 0x80 != 0;
      }
    }

    method SetSSPEnable() returns (valid: bool)
      requires Valid()
      modifies regs
      ensures !valid
      ensures Image() == if hasRead && hasWrite then SscOn(old(Image())) else old(Image())
    {
      valid := false;
      if hasRead && hasWrite {
        var v := Read(SSP_BASE);
        Write(SSP_BASE, v | 0x80);
      }
    }

    method SetSSPDisable() returns (valid: bool)
      requires Valid()
      modifies regs
      ensures !valid
      ensures Image() == if hasRead && hasWrite then SscOff(old(Image())) else old(Image())
    {
      valid := false;
      if hasRead && hasWrite {
        var v := Read(SSP_BASE);
        Write(SSP_BASE, v & !0x80);
      }
    }

    method GetSSP(s0: SSP) returns (valid: bool, s: SSP)
      requires Valid()
      ensures valid == hasRead
      ensures s == if valid then ReadSsp(Image()) else s0
    {
      valid := hasRead;
      s := s0;
      if valid {
        var v := ReadWindow(SSP_BASE, 13);
        s := SspFromBytes(v);
      }
    }

    /** The twelve writes to 0x96 .. 0xA1, as the driver's SetSSP performs them. */
    method WriteSspParams(s: SSP)
      requires Valid() && hasWrite
      modifies regs
      ensures Image() == WriteSspAsWritten(old(Image()), s)
    {
      ghost var r := Image();
      Write(0x96, ByteOf(s.dnP2));
      Write(0x97, ((ToByte(s.mode) & 0x1) << 7) | (ByteOf(s.dnP3 / 0x100) & 0x7F));
      Write(0x98, ByteOf(s.dnP3));
      Write(0x99, ByteOf(s.dnP1));
      Write(0x9A, (ByteOf(s.udp / 0x10) & 0xF0) | (ByteOf(s.dnP1 / 0x100) & 0x0F));
      Write(0x9B, ByteOf(s.udp));
      Write(0x9C, ByteOf(s.upP2 / 0x100) & 0x7F);
      Write(0x9D, ByteOf(s.upP2));
      Write(0x9E, ByteOf(s.upP3 / 0x100) & 0x7F);
      Write(0x9F, ByteOf(s.upP3));
      Write(0xA0, ByteOf(s.upP1));
      Write(0xA1, ByteOf(s.upP1 / 0x100) & 0x0F);
      StoreTwelve(r, SSP_BASE + 1, SspBytes(s));
    }

    /** With SSDN_P2[14:8] stored in register 0x95 below SSC_EN, which needs
        register 0x95 read first (see RegisterMap.WriteSspAsWritten for the
        twelve writes alone, as the driver performs them). */
    method SetSSP(s: SSP) returns (valid: bool)
      requires Valid()
      modifies regs
      ensures valid == (hasRead && hasWrite)
      ensures Image() == if valid then WriteSsp(old(Image()), s) else old(Image())
    {
      valid := hasRead && hasWrite;
      if valid {
        ghost var r := Image();
        var b := Read(SSP_BASE);
        var b0 := (b & 0x80) | (ByteOf(s.dnP2 / 0x100) & 0x7F);
        Write(SSP_BASE, b0);
        WriteSspParams(s);
        StoreCons(r, SSP_BASE, b0, SspBytes(s));
      }
    }

    /* ---------------- VCXO parameter, registers 0xA2 .. 0xA4 ---------------- */

    /** Compiled only for the Si5351B. */
    method GetVCXO(x0: u32) returns (valid: bool, x: u32)
      requires Valid() && cfg.chipType == 1
      ensures valid == hasRead
      ensures x == if valid then ReadVcxo(Image()) else x0
    {
      valid := hasRead;
      x := x0;
      if valid {
        var v := ReadWindow(VCXO_BASE, 3);
        x := VcxoFromBytes(v);
      }
    }

    method SetVCXO(x: u32) returns (valid: bool)
      requires Valid() && cfg.chipType == 1
      modifies regs
      ensures valid == hasWrite
      ensures Image() == if valid then WriteVcxo(old(Image()), x) else old(Image())
    {
      valid := hasWrite;
      if valid {
        ghost var r := Image();
        Write(VCXO_BASE, ByteOf(x));
        Write(VCXO_BASE + 1, ByteOf(x / 0x100));
        Write(VCXO_BASE + 2, ByteOf(x / 0x10000) & 0x3F);
        StoreThree(r, VCXO_BASE, VcxoBytes(x));
      }
    }

    /* ---------------- phase offset, soft reset, load capacitance ---------------- */

    method GetPhaseOffset(n: nat, ph0: bv8) returns (valid: bool, ph: bv8)
      requires Valid()
      ensures valid == (hasRead && n < PhaseOffsetCount(cfg))
      ensures ph == if valid then Image()[PHASE_BASE + n] & 0x7F else ph0
    {
      valid := hasRead && n < PhaseOffsetCount(cfg);
      ph := ph0;
      if valid {
        var v := Read(PHASE_BASE + n);
        ph := v & 0x7F;
      }
    }

    method SetPhaseOffset(n: nat, ph: bv8) returns (valid: bool)
      requires Valid()
      modifies regs
      ensures valid == (hasWrite && n < PhaseOffsetCount(cfg))
      ensures Image() == if valid then old(Image())[PHASE_BASE + n := ph & 0x7F] else old(Image())
    {
      valid := hasWrite && n < PhaseOffsetCount(cfg);
      if valid {
        Write(PHASE_BASE + n, ph & 0x7F);
      }
    }

    method PLLSoftReset() returns (valid: bool)
      requires Valid()
      modifies regs
      ensures valid == (hasRead && hasWrite)
      ensures Image() == if valid then old(Image())[REG_PLL_RESET := SoftResetByte(old(Image())[REG_PLL_RESET])] else old(Image())
    {
      valid := hasRead && hasWrite;
      if valid {
        var v := Read(REG_PLL_RESET);
        Write(REG_PLL_RESET, (v & 0x0F) | 0xA0);
      }
    }

    method GetXTALLoadCap(cap0: TwoBit) returns (valid: bool, cap: TwoBit)
      requires Valid()
      ensures valid == hasRead
      ensures cap == if valid then ReadField(Image(), XtalLoadCap) as int else cap0
    {
      valid := hasRead;
      cap := cap0;
      if valid {
        var x := GetField(XtalLoadCap);
        cap := x as int;
      }
    }

    method SetXTALLoadCap(cap: TwoBit) returns (valid: bool)
      requires Valid()
      modifies regs
      ensures valid == (hasRead && hasWrite)
      ensures Image() == if valid then WriteField(old(Image()), XtalLoadCap, ToByte(cap)) else old(Image())
    {
      valid := hasRead && hasWrite;
      if valid {
        SetField(XtalLoadCap, ToByte(cap));
      }
    }
  }
}
