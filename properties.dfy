/** What the strng register protocol guarantees, stated over the functions
    of `Protocol`: refused accesses, the three special registers, plain
    round trips on both windows, the address latch, where the two windows
    agree and disagree, and what whole bus traces can and cannot do. */
module Properties {
  import opened RandomSource
  import opened Protocol

  // ---------------------------------------------------------------------
  // Truncation of bus values

  /** Only the low half of a 64-bit bus value reaches a register: two values
      that agree there are stored alike. */
  lemma Low32IgnoresHighHalf(v: bv64, w: bv64)
    requires v & 0xFFFF_FFFF == w & 0xFFFF_FFFF
    ensures Low32(v) == Low32(w)
  {
  }

  // ---------------------------------------------------------------------
  // Refused accesses

  /** A direct access of the wrong width or alignment reads all ones and
      writes nothing. */
  lemma MmioRefusedAccess<S>(p: Primitives<S>, m: Machine<S>, offset: bv64, val: bv64, size: bv32)
    requires WellFormed(m) && offset < MMIO_SIZE
    requires !MmioHonoured(offset, size)
    ensures MmioRead(m, offset, size) == ALL_ONES
    ensures MmioWrite(p, m, offset, val, size) == m
  {
  }

  /** An indirect access of the wrong width, or at an offset other than the
      two ports, reads all ones and writes nothing. */
  lemma PmioRefusedAccess<S>(p: Primitives<S>, m: Machine<S>, offset: bv64, val: bv64, size: bv32)
    requires WellFormed(m) && offset < PMIO_SIZE
    requires size != 4 || (offset != PMIO_ADDR && offset != PMIO_DATA)
    ensures PmioRead(m, offset, size) == Done(ALL_ONES)
    ensures PmioWrite(p, m, offset, val, size) == Done(m)
  {
  }

  /** A misaligned latch makes the data port inert, whatever register
      `addr / 4` would have named. */
  lemma PmioMisalignedLatch<S>(p: Primitives<S>, m: Machine<S>, val: bv64)
    requires WellFormed(m) && m.addr & 3 != 0
    ensures PmioRead(m, PMIO_DATA, 4) == Done(ALL_ONES)
    ensures PmioWrite(p, m, PMIO_DATA, val, 4) == Done(m)
  {
  }

  // ---------------------------------------------------------------------
  // Register 0: seed control

  /** Writing register 0 directly reseeds the generator with the low 32
      bits of the value and changes no register and not the latch. */
  lemma MmioSeedRegister<S>(p: Primitives<S>, m: Machine<S>, val: bv64)
    requires WellFormed(m)
    ensures MmioWrite(p, m, 0, val, 4) == Machine(m.regs, m.addr, p.seed(m.rng, Low32(val)))
  {
  }

  /** The same through the data port, with the latch naming register 0. */
  lemma PmioSeedRegister<S>(p: Primitives<S>, m: Machine<S>, val: bv64)
    requires WellFormed(m) && m.addr == 0
    ensures PmioWrite(p, m, PMIO_DATA, val, 4) == Done(Machine(m.regs, m.addr, p.seed(m.rng, Low32(val))))
  {
  }

  // ---------------------------------------------------------------------
  // Register 1: generate

  /** Writing register 1 directly stores the next `rand()` value there,
      whatever was written, and changes no other register. */
  lemma MmioGenerateRegister<S>(p: Primitives<S>, m: Machine<S>, val: bv64, other: bv64)
    requires WellFormed(m)
    ensures MmioWrite(p, m, 4, val, 4) == Machine(m.regs[1 := p.next(m.rng).1], m.addr, p.next(m.rng).0)
    ensures MmioWrite(p, m, 4, val, 4) == MmioWrite(p, m, 4, other, 4)
  {
  }

  /** The same through the data port, with the latch naming register 1. */
  lemma PmioGenerateRegister<S>(p: Primitives<S>, m: Machine<S>, val: bv64, other: bv64)
    requires WellFormed(m) && m.addr == 4
    ensures PmioWrite(p, m, PMIO_DATA, val, 4) == Done(Machine(m.regs[1 := p.next(m.rng).1], m.addr, p.next(m.rng).0))
    ensures PmioWrite(p, m, PMIO_DATA, val, 4) == PmioWrite(p, m, PMIO_DATA, other, 4)
  {
  }

  // ---------------------------------------------------------------------
  // Register 3: seeded generate

  /** A direct write of register 3 advances the seed in register 2 with
      `rand_r`, then falls through to the plain store: register 3 ends with
      the written value, and `rand_r`'s result is lost. */
  lemma MmioSeededGenerateFallsThrough<S>(p: Primitives<S>, m: Machine<S>, val: bv64)
    requires WellFormed(m)
    ensures var w := MmioWrite(p, m, 12, val, 4);
      w.regs == m.regs[2 := p.nextSeeded(m.regs[2]).0][3 := Low32(val)] &&
      w.addr == m.addr && w.rng == m.rng &&
      MmioRead(w, 12, 4) == val & 0xFFFF_FFFF
  {
  }

  /** A write of register 3 through the data port keeps `rand_r`'s result
      in register 3 and its updated seed in register 2. */
  lemma PmioSeededGenerate<S>(p: Primitives<S>, m: Machine<S>, val: bv64)
    requires WellFormed(m) && m.addr == 12
    ensures PmioWrite(p, m, PMIO_DATA, val, 4) ==
      Done(m.(regs := m.regs[2 := p.nextSeeded(m.regs[2]).0][3 := p.nextSeeded(m.regs[2]).1]))
  {
  }

  /** Selecting register 3 through the latch, writing 0 to the data port
      and reading it back yields the `rand_r` result for the seed register
      2 held before, not the 0 that was written. */
  lemma PmioSeededGenerateScenario<S>(p: Primitives<S>, m: Machine<S>)
    requires WellFormed(m)
    ensures Run(p, m, [PmioWr(PMIO_ADDR, 12, 4), PmioWr(PMIO_DATA, 0, 4)]) ==
      Done(Machine(m.regs[2 := p.nextSeeded(m.regs[2]).0][3 := p.nextSeeded(m.regs[2]).1], 12, m.rng))
    ensures var r := Run(p, m, [PmioWr(PMIO_ADDR, 12, 4), PmioWr(PMIO_DATA, 0, 4)]);
      r.Done? && PmioRead(r.value, PMIO_DATA, 4) == Done(p.nextSeeded(m.regs[2]).1 as bv64)
  {
    var t := [PmioWr(PMIO_ADDR, 12, 4), PmioWr(PMIO_DATA, 0, 4)];
    var m1 := m.(addr := 12);
    assert Step(p, m, t[0]) == Done(m1);
    assert t[1..] == [t[1]];
    assert Run(p, m1, t[1..]) == Step(p, m1, t[1]);
  }

  // ---------------------------------------------------------------------
  // Plain registers: round trips

  /** Register 2 and registers 4 to 63 are plain storage on the direct
      window: a write changes that one cell to the low 32 bits of the value
      and a read of it returns them. */
  lemma MmioPlainRoundTrip<S>(p: Primitives<S>, m: Machine<S>, offset: bv64, val: bv64)
    requires WellFormed(m) && offset < MMIO_SIZE && offset & 3 == 0
    requires MmioIndex(offset) == 2 || MmioIndex(offset) >= 4
    ensures var w := MmioWrite(p, m, offset, val, 4);
      w == m.(regs := m.regs[MmioIndex(offset) := Low32(val)]) &&
      MmioRead(w, offset, 4) == val & 0xFFFF_FFFF
  {
  }

  /** The same through the data port, with the latch naming the register. */
  lemma PmioPlainRoundTrip<S>(p: Primitives<S>, m: Machine<S>, val: bv64)
    requires WellFormed(m) && m.addr < 256 && m.addr & 3 == 0
    requires LatchIndex(m.addr) == 2 || LatchIndex(m.addr) >= 4
    ensures var w := PmioWrite(p, m, PMIO_DATA, val, 4);
      w == Done(m.(regs := m.regs[LatchIndex(m.addr) := Low32(val)])) &&
      PmioRead(w.value, PMIO_DATA, 4) == Done(val & 0xFFFF_FFFF)
  {
    var i := LatchIndex(m.addr);
    var after := m.(regs := m.regs[i := Low32(val)]);
    assert PmioWrite(p, m, PMIO_DATA, val, 4) == Done(after) by {
      assert i != 0 && i != 1 && i != 3 && i < REGS;
    }
    DataPortReadsLatchedRegister(after);
    assert after.regs[i] as bv64 == val & 0xFFFF_FFFF;
  }

  /** With an aligned latch inside the direct window, the data port reads
      the register the latch names. */
  lemma DataPortReadsLatchedRegister<S>(m: Machine<S>)
    requires WellFormed(m) && m.addr < 256 && m.addr & 3 == 0
    ensures PmioRead(m, PMIO_DATA, 4) == Done(m.regs[LatchIndex(m.addr)] as bv64)
  {
  }

  /** 0xCAFEBABE written at direct offset 16 (register 4) reads back; written
      at offset 4 it does not, since offset 4 is register 1 and reads back
      the `rand()` value instead. */
  lemma MmioRoundTripScenario<S>(p: Primitives<S>, m: Machine<S>)
    requires WellFormed(m)
    ensures MmioRead(MmioWrite(p, m, 16, 0xCAFE_BABE, 4), 16, 4) == 0xCAFE_BABE
    ensures MmioRead(MmioWrite(p, m, 4, 0xCAFE_BABE, 4), 4, 4) == p.next(m.rng).1 as bv64
  {
  }

  // ---------------------------------------------------------------------
  // The address latch

  /** A 4-byte write to port 0 loads the latch with the low 32 bits of the
      value, unchecked, and changes nothing else; reading port 0 returns it. */
  lemma LatchRoundTrip<S>(p: Primitives<S>, m: Machine<S>, val: bv64)
    requires WellFormed(m)
    ensures PmioWrite(p, m, PMIO_ADDR, val, 4) == Done(Machine(m.regs, Low32(val), m.rng))
    ensures PmioRead(PmioWrite(p, m, PMIO_ADDR, val, 4).value, PMIO_ADDR, 4) == Done(val & 0xFFFF_FFFF)
  {
  }

  /** With an aligned latch, the data port leaves the register file exactly
      when the latch is 256 or more: nothing bounds `addr >> 2` by 64. */
  lemma DataPortOutOfRange<S>(p: Primitives<S>, m: Machine<S>, val: bv64)
    requires WellFormed(m) && m.addr & 3 == 0
    ensures PmioRead(m, PMIO_DATA, 4).OutOfRange? <==> m.addr >= 256
    ensures PmioWrite(p, m, PMIO_DATA, val, 4).OutOfRange? <==> m.addr >= 256
    ensures m.addr >= 256 ==> PmioRead(m, PMIO_DATA, 4) == OutOfRange(LatchIndex(m.addr))
  {
  }

  // ---------------------------------------------------------------------
  // The two windows side by side

  /** With the latch holding a register's direct offset, a data-port read
      returns what the direct read returns. */
  lemma WindowsReadAlike<S>(m: Machine<S>, offset: bv64)
    requires WellFormed(m) && offset < MMIO_SIZE && offset & 3 == 0
    requires m.addr as bv64 == offset
    ensures PmioRead(m, PMIO_DATA, 4) == Done(MmioRead(m, offset, 4))
  {
    assert LatchIndex(m.addr) == MmioIndex(offset);
  }

  /** With the latch holding a register's direct offset, a data-port write
      has the effect of the direct write for every register except 3. */
  lemma WindowsWriteAlike<S>(p: Primitives<S>, m: Machine<S>, offset: bv64, val: bv64)
    requires WellFormed(m) && offset < MMIO_SIZE && offset & 3 == 0
    requires m.addr as bv64 == offset && offset != 12
    ensures PmioWrite(p, m, PMIO_DATA, val, 4) == Done(MmioWrite(p, m, offset, val, 4))
  {
  }

  /** For register 3 the two windows agree exactly when the written value
      happens to equal what `rand_r` produced. */
  lemma WindowsDisagreeOnSeededGenerate<S>(p: Primitives<S>, m: Machine<S>, val: bv64)
    requires WellFormed(m) && m.addr == 12
    ensures PmioWrite(p, m, PMIO_DATA, val, 4) == Done(MmioWrite(p, m, 12, val, 4)) <==>
      Low32(val) == p.nextSeeded(m.regs[2]).1
  {
    var seed := p.nextSeeded(m.regs[2]);
    var viaPmio := m.regs[2 := seed.0][3 := seed.1];
    var viaMmio := m.regs[2 := seed.0][3 := Low32(val)];
    assert MmioWrite(p, m, 12, val, 4) == m.(regs := viaMmio);
    assert PmioWrite(p, m, PMIO_DATA, val, 4) == Done(m.(regs := viaPmio));
    if viaPmio == viaMmio {
      assert viaPmio[3] == viaMmio[3];
    }
    if Low32(val) == seed.1 {
      assert viaPmio == viaMmio;
    }
  }

  // ---------------------------------------------------------------------
  // Bus traces

  /** Accesses of a width other than 4 bytes never change the device,
      however many of them arrive. */
  lemma {:induction false} NarrowTraceInert<S>(p: Primitives<S>, m: Machine<S>, t: seq<Access>)
    requires WellFormed(m) && forall a <- t :: InWindow(a)
    requires forall a <- t :: a.size != 4
    ensures Run(p, m, t) == Done(m)
  {
    if t != [] {
      assert t[0] in t;
      assert Step(p, m, t[0]) == Done(m);
      NarrowTraceInert(p, m, t[1..]);
    }
  }

  /** No access path ever stores into register 0: it keeps the value it
      had for the whole life of the device. */
  lemma {:induction false} Register0Preserved<S>(p: Primitives<S>, m: Machine<S>, t: seq<Access>)
    requires WellFormed(m) && forall a <- t :: InWindow(a)
    ensures Run(p, m, t).Done? ==> Run(p, m, t).value.regs[0] == m.regs[0]
    decreases |t|
  {
    if t != [] {
      assert t[0] in t;
      match Step(p, m, t[0])
      case OutOfRange(_) =>
      case Done(m1) =>
        Register0Preserved(p, m1, t[1..]);
    }
  }

  /** The direct window alone can never leave the register file and never
      touches the latch. */
  lemma {:induction false} MmioTraceSafe<S>(p: Primitives<S>, m: Machine<S>, t: seq<Access>)
    requires WellFormed(m) && forall a <- t :: InWindow(a)
    requires forall a <- t :: a.MmioRd? || a.MmioWr?
    ensures Run(p, m, t).Done? && Run(p, m, t).value.addr == m.addr
    decreases |t|
  {
    if t != [] {
      assert t[0] in t;
      var m1 := Step(p, m, t[0]).value;
      MmioTraceSafe(p, m1, t[1..]);
    }
  }

  /** A latch write that keeps the latch inside the direct window. */
  predicate LatchStaysInWindow(a: Access) {
    a.PmioWr? && a.offset == PMIO_ADDR && a.size == 4 ==> Low32(a.val) < 256
  }

  /** As long as the guest only ever loads the latch with values below 256,
      no access leaves the register file. */
  lemma {:induction false} BoundedLatchSafe<S>(p: Primitives<S>, m: Machine<S>, t: seq<Access>)
    requires WellFormed(m) && forall a <- t :: InWindow(a)
    requires m.addr < 256 && forall a <- t :: LatchStaysInWindow(a)
    ensures Run(p, m, t).Done? && Run(p, m, t).value.addr < 256
    decreases |t|
  {
    if t != [] {
      assert t[0] in t;
      var s := Step(p, m, t[0]);
      assert s.Done? && s.value.addr < 256;
      BoundedLatchSafe(p, s.value, t[1..]);
    }
  }

  /** And that bound is needed: loading the latch with 256 and reading the
      data port reaches register index 64, one past the register file. */
  lemma EscapingTrace<S>(p: Primitives<S>, m: Machine<S>)
    requires WellFormed(m)
    ensures Run(p, m, [PmioWr(PMIO_ADDR, 256, 4), PmioRd(PMIO_DATA, 4)]) == OutOfRange(64)
  {
  }
}
