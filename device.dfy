/** The strng device object (`STRNGState`) and its four access handlers,
    updating the register array and the address latch in place. Each
    handler is proved to do what the matching function of `Protocol` says. */
module Device {
  import opened RandomSource
  import opened Protocol

  class Strng<S> {
    /** The `srand`, `rand` and `rand_r` pointers, wired at instance_init. */
    const libc: Libc<S>
    /** `uint32_t regs[STRNG_MMIO_REGS]`, embedded in the state. */
    const regs: array<bv32>
    /** `uint32_t addr`: the latch of the indirect window. */
    var addr: bv32

    ghost predicate Valid()
      reads this
    {
      regs.Length == REGS
    }

    /** The state as the protocol functions see it. */
    ghost function State(): (m: Machine<S>)
      reads this, regs, libc
      requires Valid()
      ensures WellFormed(m)
    {
      Machine(regs[..], addr, libc.state)
    }

    /** A freshly created device: QEMU zero-fills the object, so every
        register and the latch start at 0. */
    constructor (libc: Libc<S>)
      ensures Valid() && fresh(regs) && this.libc == libc
      ensures addr == 0 && forall i :: 0 <= i < REGS ==> regs[i] == 0
    {
      this.libc := libc;
      regs := new bv32[REGS](_ => 0);
      addr := 0;
    }

    // strng_mmio_read
    method MmioRead(offset: bv64, size: bv32) returns (v: bv64)
      requires Valid() && offset < MMIO_SIZE
      ensures v == Protocol.MmioRead(State(), offset, size)
    {
      if !MmioHonoured(offset, size) {
        return ALL_ONES;
      }
      v := regs[MmioIndex(offset)] as bv64;
    }

    // strng_mmio_write
    method MmioWrite(offset: bv64, val: bv64, size: bv32)
      requires Valid() && offset < MMIO_SIZE
      modifies regs, libc
      ensures Valid()
      ensures State() == Protocol.MmioWrite(libc.ops, old(State()), offset, val, size)
    {
      if !MmioHonoured(offset, size) {
        return;
      }
      var saddr := MmioIndex(offset);
      if saddr == 0 {
        libc.Srand(Low32(val));
      } else if saddr == 1 {
        regs[saddr] := libc.Rand();
      } else {
        if saddr == 3 {
          // rand_r updates regs[2] through its pointer argument
          var (seed, v) := libc.ops.nextSeeded(regs[2]);
          regs[2] := seed;
          regs[saddr] := v;
        }
        // no break after case 3: control falls into the default store
        regs[saddr] := Low32(val);
      }
    }

    // strng_pmio_read
    method PmioRead(offset: bv64, size: bv32) returns (o: Outcome<bv64>)
      requires Valid() && offset < PMIO_SIZE
      ensures o == Protocol.PmioRead(State(), offset, size)
    {
      o := Done(ALL_ONES);
      if size != 4 {
        return;
      }
      if offset == PMIO_ADDR {
        o := Done(addr as bv64);
      } else if offset == PMIO_DATA {
        if addr & 3 != 0 {
          return;
        }
        var i := LatchIndex(addr);
        if i < regs.Length {
          o := Done(regs[i] as bv64);
        } else {
          o := OutOfRange(i);
        }
      }
    }

    // strng_pmio_write
    method PmioWrite(offset: bv64, val: bv64, size: bv32) returns (o: Outcome<()>)
      requires Valid() && offset < PMIO_SIZE
      modifies this, regs, libc
      ensures Valid()
      ensures match Protocol.PmioWrite(libc.ops, old(State()), offset, val, size)
              case Done(m) => o == Done(()) && State() == m
              case OutOfRange(i) => o == OutOfRange(i) && State() == old(State())
    {
      o := Done(());
      if size != 4 {
        return;
      }
      if offset == PMIO_ADDR {
        addr := Low32(val);
      } else if offset == PMIO_DATA {
        if addr & 3 != 0 {
          return;
        }
        var saddr := LatchIndex(addr);
        if saddr == 0 {
          libc.Srand(Low32(val));
        } else if saddr == 1 {
          regs[saddr] := libc.Rand();
        } else if saddr == 3 {
          var (seed, v) := libc.ops.nextSeeded(regs[2]);
          regs[2] := seed;
          regs[saddr] := v;
        } else if saddr < regs.Length {
          regs[saddr] := Low32(val);
        } else {
          // regs[saddr] would lie past the end of the register array
          o := OutOfRange(saddr);
        }
      }
    }
  }
}
