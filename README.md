# strng: a verified model of the register protocol

`strng` is a virtual PCI device for QEMU that exposes the C library's
pseudo-random generator to a guest. Its state (`STRNGState`) holds 64
registers of 32 bits and a 32-bit address latch. A guest reaches the
registers in two ways:

- the **MMIO window** (256 bytes), where register `i` sits at byte offset `4*i`;
- the **PMIO window** (8 bytes), where port 0 is the address latch and port 4
  is a data port that reaches register `addr >> 2`.

Writes dispatch on the register index:

- register 0 reseeds the generator (`srand`);
- register 1 stores `rand()`;
- register 3 stores `rand_r(&regs[2])`;
- every other register is plain storage.

The model has four modules:

- `RandomSource` (random_source.dfy) holds the three libc primitives. They are
  functions over an abstract generator state `S`. The class `Libc` holds the
  hidden state behind `srand`/`rand`.
- `Protocol` (protocol.dfy) gives each of the four handlers as a function of
  the device state (`Machine`). It also defines `Run`, which applies a trace
  of bus accesses one at a time.
- `Device` (device.dfy) is the class `Strng`. Its `regs` is an `array<bv32>` of
  length 64 and its `addr` is a field. Its four handler methods update them in
  place, and each method is proved equal to its `Protocol` function.
- `Properties` (properties.dfy) states the protocol's guarantees as lemmas.
  These cover single accesses and whole traces.

Four behaviours of the code are easy to misread, and the model keeps each
exactly as written:

- A direct (MMIO) write of register 3 has no `break`. It advances the seed in
  register 2 and then falls into the plain store, so register 3 ends with the
  written value. The PMIO path keeps `rand_r`'s result instead. Both behaviours
  are modelled as written, and `WindowsDisagreeOnSeededGenerate` states exactly
  when they differ.
- A refused read returns `~0ULL`, which is 64 bits of ones. It is not all ones
  truncated to the access width.
- The PMIO data port never bounds `addr >> 2` by 64. An aligned latch of 256 or
  more therefore names a cell past the register file. The model returns an
  explicit `OutOfRange(index)` outcome instead of touching memory.
- Direct offset 4 is register 1, the generate register. A value written there
  does not read back: the read returns the `rand()` value. Plain registers
  such as register 4 at offset 16 do read back (`MmioRoundTripScenario`).

## Model

| member | source | states |
|---|---|---|
| `RandomSource.Libc.Srand` | strng.c:20 | `srand` replaces the hidden generator state by the seeded one |
| `RandomSource.Libc.Rand` | strng.c:21 | `rand` returns the next value and advances the hidden state |
| `Protocol.Low32` | strng.c:56-57 | converting a 64-bit bus value to a register keeps its low 32 bits, and keeps a value that fits in 32 bits unchanged |
| `Protocol.MmioHonoured` | strng.c:29-30 | a direct access is honoured exactly when it is 4 bytes wide and its offset is 4 times a register number |
| `Protocol.MmioIndex` | strng.c:43 | a direct offset inside the 256-byte window names a register below 64, and an aligned offset is 4 times that index |
| `Protocol.LatchIndex` | strng.c:107 | the data port's index stays below 2^30 and reaches 2^30-1 for the latch 0xFFFFFFFC, and it lies inside the register file exactly when the latch is below 256 |
| `Protocol.MmioRead` | strng.c:25-33 | a direct read yields all ones if and only if the access is refused: no register value can be mistaken for the sentinel |
| `Protocol.MmioWrite` | strng.c:35-59 | a direct write keeps 64 registers, never touches the latch and never stores into register 0 |
| `Protocol.PmioRead` | strng.c:67-88 | an indirect read yields all ones if and only if it is refused by width, offset or latch alignment, and leaves the register file if and only if it reads the data port with an aligned latch of 256 or more |
| `Protocol.PmioWrite` | strng.c:90-125 | an indirect write that stays in range keeps 64 registers and never stores into register 0; only port 0 changes the latch |
| `Protocol.Step` | strng.c:61-131 | one bus access through either handler table keeps 64 registers and leaves register 0 alone |
| `Protocol.Run` | strng.c:137-140 | a trace of accesses that stays in range keeps the register file at 64 cells |
| `Device.Strng.constructor` | strng.c:143-150 | a new device has its primitives wired, all registers 0 and the latch 0 |
| `Device.Strng.MmioRead` | strng.c:25-33 | the direct read handler returns what `Protocol.MmioRead` gives for the current state |
| `Device.Strng.MmioWrite` | strng.c:35-59 | the direct write handler, including the fall-through after `rand_r`, leaves exactly the state `Protocol.MmioWrite` gives |
| `Device.Strng.PmioRead` | strng.c:67-88 | the indirect read handler returns what `Protocol.PmioRead` gives, including the out-of-range outcome |
| `Device.Strng.PmioWrite` | strng.c:90-125 | the indirect write handler leaves the state `Protocol.PmioWrite` gives, or reports the out-of-range index and changes nothing |
| `Properties.Low32IgnoresHighHalf` | strng.c:57 | two bus values with the same low 32 bits are stored alike |
| `Properties.MmioRefusedAccess` | strng.c:29-30 | a direct access of width other than 4 or at an unaligned offset reads all ones, and as a write changes nothing |
| `Properties.PmioRefusedAccess` | strng.c:72-85 | an indirect access of width other than 4, or at an offset other than 0 and 4, reads all ones, and as a write changes nothing |
| `Properties.PmioMisalignedLatch` | strng.c:81-82 | with `addr & 3 != 0` the data port reads all ones and ignores writes, whatever `addr >> 2` would name |
| `Properties.MmioSeedRegister` | strng.c:45-47 | a direct write to register 0 calls `srand` with the low 32 bits of the value and leaves every register and the latch as they were |
| `Properties.PmioSeedRegister` | strng.c:109-111 | the same for a write to register 0 through the data port |
| `Properties.MmioGenerateRegister` | strng.c:49-51 | a direct write to register 1 stores `rand()` there, changes no other register and does not depend on the written value |
| `Properties.PmioGenerateRegister` | strng.c:113-115 | the same for a write to register 1 through the data port |
| `Properties.MmioSeededGenerateFallsThrough` | strng.c:53-57 | a direct write to register 3 advances register 2 by `rand_r`, and register 3 then holds the written value |
| `Properties.PmioSeededGenerate` | strng.c:117-119 | a write to register 3 through the data port stores `rand_r`'s result in register 3 and its new seed in register 2 |
| `Properties.PmioSeededGenerateScenario` | strng.c:99-119 | latching 12 and writing 0 to the data port ends in a state whose data-port read gives `rand_r`'s result, not the written 0 |
| `Properties.MmioPlainRoundTrip` | strng.c:56-57 | for register 2 or 4..63, a direct write changes only that cell, and reading it back gives the value's low 32 bits |
| `Properties.PmioPlainRoundTrip` | strng.c:121-122 | the same round trip through the data port |
| `Properties.DataPortReadsLatchedRegister` | strng.c:80-84 | with an aligned latch below 256, the data port reads the register the latch names |
| `Properties.MmioRoundTripScenario` | strng.c:49-57 | 0xCAFEBABE round-trips at offset 16, while at offset 4 the read gives `rand()` |
| `Properties.LatchRoundTrip` | strng.c:76-78 | a write to port 0 loads the latch with the low 32 bits, unchecked, and changes no register; reading port 0 returns it |
| `Properties.DataPortOutOfRange` | strng.c:103-107 | with an aligned latch, data-port reads and writes leave the register file if and only if the latch is 256 or more |
| `Properties.WindowsReadAlike` | strng.c:32 | with the latch holding a direct offset, the data port reads what the direct window reads |
| `Properties.WindowsWriteAlike` | strng.c:43-57 | with the latch holding a direct offset other than 12, a data-port write has the direct write's effect |
| `Properties.WindowsDisagreeOnSeededGenerate` | strng.c:117-119 | for register 3 the two windows' writes agree if and only if the written value equals `rand_r`'s result |
| `Properties.NarrowTraceInert` | strng.c:40-41 | any trace of accesses of width other than 4 leaves the device unchanged |
| `Properties.Register0Preserved` | strng.c:45-47 | no trace of accesses ever changes register 0 |
| `Properties.MmioTraceSafe` | strng.c:137 | a trace through the direct window alone never leaves the register file and never changes the latch |
| `Properties.BoundedLatchSafe` | strng.c:99-107 | if the latch starts below 256 and is only ever loaded with values below 256, no access leaves the register file |
| `Properties.EscapingTrace` | strng.c:100-107 | latching 256 and reading the data port reaches index 64, one past the register file |

## Left out

- PCI and QOM plumbing is not modelled: `pci_strng_realize`, `strng_class_init`, type registration, the device identity and BAR mapping. Only the two window sizes are kept, as preconditions: MMIO offsets below 256 and PMIO offsets below 8.
- Byte order is not modelled. `DEVICE_NATIVE_ENDIAN` for MMIO and `DEVICE_LITTLE_ENDIAN` for PMIO are handled by QEMU's memory core, so handler arguments are taken as already-decoded integers.
- The internals of `srand`, `rand` and `rand_r` are not modelled. They are libc calls, and the model takes them as arbitrary functions over an abstract state. The `int` that `rand` and `rand_r` return is taken as the 32-bit pattern that is stored into the register.
- The `pdev`, `mmio` and `pmio` fields are left out, because no handler touches them.
- An out-of-range data-port access in C is undefined behaviour. Its index can reach 2^30-1, so it can touch memory up to about 4 GiB past `regs`, far outside `STRNGState`. Only the first few cells past the register file lie inside the object: padding and the `srand`, `rand` and `rand_r` pointers declared right after `regs` (strng.c:19-22). The model reports `OutOfRange(index)` and leaves the state unchanged. It does not say what that memory holds or what overwriting it does. Holding the three pointers as the constant `libc` of `Device.Strng` is sound only because an out-of-range access is reported and not carried out.
- Device.Strng.constructor: the all-zero start state is QEMU zero-filling the object. That code is not part of this model.
- Concurrency is left out. QEMU delivers accesses to the device one at a time.
