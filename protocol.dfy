/** The register protocol of the strng device as functions of its state:
    one function per access handler, and a bus trace interpreter that
    applies a sequence of accesses one at a time. */
module Protocol {
  import opened RandomSource

  /** STRNG_MMIO_REGS: the number of 32-bit registers. */
  const REGS: nat := 64
  /** STRNG_MMIO_SIZE: the direct window, four bytes per register. */
  const MMIO_SIZE: bv64 := 256
  /** STRNG_PMIO_ADDR and STRNG_PMIO_DATA: the two ports of the indirect window. */
  const PMIO_ADDR: bv64 := 0
  const PMIO_DATA: bv64 := 4
  /** STRNG_PMIO_SIZE: the indirect window. */
  const PMIO_SIZE: bv64 := 8
  /** `~0ULL`, what a refused read returns. */
  const ALL_ONES: bv64 := 0xFFFF_FFFF_FFFF_FFFF

  /** The device state the handlers see: the register file, the address
      latch of the indirect window and the hidden state of `srand`/`rand`. */
  datatype Machine<S> = Machine(regs: seq<bv32>, addr: bv32, rng: S)

  predicate WellFormed<S>(m: Machine<S>) {
    |m.regs| == REGS
  }

  /** The result of an access: its value, or the register index it would
      have used when that index lies outside the register file. */
  datatype Outcome<T> = Done(value: T) | OutOfRange(index: nat)

  /** The conversion of a `uint64_t` bus value to `uint32_t` (or `unsigned int`). */
  function Low32(v: bv64): (r: bv32)
    ensures r as bv64 == v & 0xFFFF_FFFF
    // a value that fits in 32 bits is kept as it is
    ensures v < 0x1_0000_0000 ==> r as bv64 == v
  {
    (v & 0xFFFF_FFFF) as bv32
  }

  /** The direct window honours only 4-byte accesses at 4-aligned offsets. */
  predicate MmioHonoured(offset: bv64, size: bv32): (b: bool)
    ensures b <==> size == 4 && (offset >> 2) << 2 == offset
  {
    size == 4 && offset & 3 == 0
  }

  /** The register an honoured direct access at `offset` reaches. */
  function MmioIndex(offset: bv64): (i: nat)
    requires offset < MMIO_SIZE
    ensures i < REGS && (offset & 3 == 0 ==> offset == 4 * i as bv64)
  {
    (offset >> 2) as nat
  }

  /** The register the data port reaches when the latch holds `addr`; the
      code never bounds it by the size of the register file. */
  function LatchIndex(addr: bv32): (i: nat)
    ensures i < 0x4000_0000 && (addr == 0xFFFF_FFFC ==> i == 0x3FFF_FFFF)
    ensures i < REGS <==> addr < MMIO_SIZE as bv32
  {
    (addr >> 2) as nat
  }

  // strng_mmio_read
  function MmioRead<S>(m: Machine<S>, offset: bv64, size: bv32): (v: bv64)
    requires WellFormed(m) && offset < MMIO_SIZE
    // the sentinel cannot be mistaken for a register value
    ensures v == ALL_ONES <==> !MmioHonoured(offset, size)
  {
    if !MmioHonoured(offset, size) then ALL_ONES
    else m.regs[MmioIndex(offset)] as bv64
  }

  // strng_mmio_write; register 3 falls through into the plain store
  function MmioWrite<S>(p: Primitives<S>, m: Machine<S>, offset: bv64, val: bv64, size: bv32): (r: Machine<S>)
    requires WellFormed(m) && offset < MMIO_SIZE
    ensures WellFormed(r) && r.addr == m.addr
    ensures r.regs[0] == m.regs[0]
  {
    if !MmioHonoured(offset, size) then m
    else
      var i := MmioIndex(offset);
      if i == 0 then m.(rng := p.seed(m.rng, Low32(val)))
      else if i == 1 then
        var (s, v) := p.next(m.rng);
        m.(regs := m.regs[1 := v], rng := s)
      else if i == 3 then
        var (seed, v) := p.nextSeeded(m.regs[2]);
        m.(regs := m.regs[2 := seed][3 := v][3 := Low32(val)])
      else m.(regs := m.regs[i := Low32(val)])
  }

  // strng_pmio_read
  function PmioRead<S>(m: Machine<S>, offset: bv64, size: bv32): (r: Outcome<bv64>)
    requires WellFormed(m) && offset < PMIO_SIZE
    // all ones exactly for a refused width, offset or latch alignment
    ensures r == Done(ALL_ONES) <==>
      size != 4 || (offset != PMIO_ADDR && offset != PMIO_DATA) || (offset == PMIO_DATA && m.addr & 3 != 0)
    // the data port leaves the register file exactly for an aligned latch of 256 or more
    ensures r.OutOfRange? <==> size == 4 && offset == PMIO_DATA && m.addr & 3 == 0 && m.addr >= 256
  {
    if size != 4 then Done(ALL_ONES)
    else if offset == PMIO_ADDR then Done(m.addr as bv64)
    else if offset == PMIO_DATA then
      if m.addr & 3 != 0 then Done(ALL_ONES)
      else
        var i := LatchIndex(m.addr);
        if i < REGS then Done(m.regs[i] as bv64) else OutOfRange(i)
    else Done(ALL_ONES)
  }

  // strng_pmio_write; register 3 keeps the value rand_r produced
  function PmioWrite<S>(p: Primitives<S>, m: Machine<S>, offset: bv64, val: bv64, size: bv32): (r: Outcome<Machine<S>>)
    requires WellFormed(m) && offset < PMIO_SIZE
    ensures r.Done? ==> WellFormed(r.value)
    ensures r.Done? && offset != PMIO_ADDR ==> r.value.addr == m.addr
    ensures r.Done? ==> r.value.regs[0] == m.regs[0]
  {
    if size != 4 then Done(m)
    else if offset == PMIO_ADDR then Done(m.(addr := Low32(val)))
    else if offset == PMIO_DATA then
      if m.addr & 3 != 0 then Done(m)
      else
        var i := LatchIndex(m.addr);
        if i == 0 then Done(m.(rng := p.seed(m.rng, Low32(val))))
        else if i == 1 then
          var (s, v) := p.next(m.rng);
          Done(m.(regs := m.regs[1 := v], rng := s))
        else if i == 3 then
          var (seed, v) := p.nextSeeded(m.regs[2]);
          Done(m.(regs := m.regs[2 := seed][3 := v]))
        else if i < REGS then Done(m.(regs := m.regs[i := Low32(val)]))
        else OutOfRange(i)
    else Done(m)
  }

  /** One bus access, as QEMU's memory core delivers it to the device. */
  datatype Access =
    | MmioRd(offset: bv64, size: bv32)
    | MmioWr(offset: bv64, val: bv64, size: bv32)
    | PmioRd(offset: bv64, size: bv32)
    | PmioWr(offset: bv64, val: bv64, size: bv32)

  /** The memory core only delivers offsets inside the window it mapped. */
  predicate InWindow(a: Access) {
    if a.MmioRd? || a.MmioWr? then a.offset < MMIO_SIZE else a.offset < PMIO_SIZE
  }

  /** The state after one access; reads leave it as it is. */
  function Step<S>(p: Primitives<S>, m: Machine<S>, a: Access): (r: Outcome<Machine<S>>)
    requires WellFormed(m) && InWindow(a)
    ensures r.Done? ==> WellFormed(r.value) && r.value.regs[0] == m.regs[0]
  {
    match a
    case MmioRd(_, _) => Done(m)
    case MmioWr(offset, val, size) => Done(MmioWrite(p, m, offset, val, size))
    case PmioRd(offset, size) =>
      (match PmioRead(m, offset, size)
       case Done(_) => Done(m)
       case OutOfRange(i) => OutOfRange(i))
    case PmioWr(offset, val, size) => PmioWrite(p, m, offset, val, size)
  }

  /** The state after a whole trace of accesses, or the first index that
      leaves the register file. */
  function Run<S>(p: Primitives<S>, m: Machine<S>, t: seq<Access>): (r: Outcome<Machine<S>>)
    requires WellFormed(m) && forall a <- t :: InWindow(a)
    ensures r.Done? ==> WellFormed(r.value)
    decreases |t|
  {
    if t == [] then Done(m)
    else
      match Step(p, m, t[0])
      case OutOfRange(i) => OutOfRange(i)
      case Done(m1) => Run(p, m1, t[1..])
  }
}
