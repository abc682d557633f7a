# rgb-emu core, modelled in Dafny

rgb-emu is the beginning of an emulator for an 8-bit handheld game console.
Its library (`src/lib.rs`) does two things, and this project models both:

* **Cartridge loading (`Rom`).** The file's bytes are stored by address. From
  fixed header offsets the loader derives the title (0x0134..0x0142), the
  cartridge type (byte 0x0147, through a closed 28-entry table), the ROM size
  and bank count (byte 0x0148) and the RAM size and bank count (byte 0x0149).
  An unknown code stops the load. A header byte beyond the end of the file
  reads as 0x00. `get_value` is a lenient lookup that returns 0 for an absent
  address.
* **The processor (`Cpu`).** There are eight 8-bit registers and the 16-bit
  `sp` and `pc`, with fixed reset values. `exec` fetches the opcode at `pc`
  from the cartridge and dispatches on it. Only NOP (0x00) and LD BC,n16
  (0x01) are implemented. Every other opcode, including the stubs for 0x02,
  0x03 and 0x04, stops execution.

Files:

* `types.dfy` (module `Types`): `u8`, `u16` and `u32` as subset types of
  `int`, and the `Result` type. Failures are returned as `Result` values
  where the original panics.
* `cartridge.dfy` (module `Cartridge`): the `Rom` datatype and the `CartType`
  datatype. It holds the code tables as functions, the title as a function
  with a second reference definition (a filter over the title field),
  `Decode` (what loading yields) and the imperative loader. The loader is
  `Index`, which builds the address-to-byte map; `ReadTitle`, the title loop;
  and `Load`, which is proved equal to `Decode`.
* `processor.dfy` (module `Processor`): the `Cpu` class, whose fields the
  instructions update in place. `Step` is a pure reference definition of one
  `exec` on a register snapshot. `Cpu.Exec` is proved against `Step`, and
  the lemmas about `Step` state what each instruction does.

Modelling choices:

* The image is a `seq<u8>`. The original keeps it in a `HashMap<u32, u8>`
  filled by a loop. `Index` models that loop. Its contract says the map holds
  exactly the file's bytes at their positions, so the map's lookup with a
  default of 0 equals `Rom.GetValue`.
* The address counter in that loop is a `u32`. On a file of 2^32 bytes or
  more, `addr += 1` overflows, which panics in a debug build. The model
  reports this as `LoadError.AddressOverflow`.
* The other panics become `LoadError.UnknownCartType(code)`,
  `InvalidRomSize(code)`, `InvalidRamSize(code)` and
  `ExecError.NotYetImplemented`. They are checked in the source's order:
  cartridge type, then ROM size, then RAM size.
* `pc += 1` on the 16-bit `pc` is modelled as wrap-around modulo 0x10000
  (`Inc16`), which is what a release build does. A debug build panics
  instead at 0xFFFF.
* The operand byte order of LD BC,n16 follows the code: B comes from pc+1 and
  C from pc+2. The operand is therefore read high byte first, and bytes
  01 34 12 give BC = 0x3412 (`LdBcN16ByteOrder`). The console itself reads
  16-bit operands little-endian, which would give 0x1234; the model follows
  the code.
* The title is not NUL-terminated: the code skips every NUL and goes on to
  the end of the field (`TitleSkipsNul`).
* `byte as char` in Rust and `x as char` in Dafny both give the character
  with that code point, so title bytes 0x80..0xFF become U+0080..U+00FF.

## Model

| member | source | states |
|---|---|---|
| `Cartridge.Rom.GetValue` | src/lib.rs:133-139 | the byte at `addr` when `addr` is within the file, 0 otherwise, for every `addr` (no precondition: it never fails) |
| `Cartridge.Index` | src/lib.rs:52-63 | the map built from the file holds exactly the addresses `0..|file|-1`, each with the file's byte; its lookup with default 0 agrees with the image's byte at every 32-bit address; fails with AddressOverflow exactly when the file has 2^32 bytes or more |
| `Cartridge.TitleUpTo` | src/lib.rs:65-76 | the characters gathered from the first `end - 0x0134` title addresses number at most that many and include no NUL |
| `Cartridge.Title` | src/lib.rs:65-77 | the title has at most 15 characters and contains no NUL |
| `Cartridge.TitleUpToIsFilteredField` | src/lib.rs:65-76 | the title loop's result up to any end address equals the non-NUL bytes, in order, of the part of the field the file holds |
| `Cartridge.TitleIsFilteredField` | src/lib.rs:65-77 | the title is the non-NUL bytes of the file's part of 0x0134..0x0142, in order, as characters |
| `Cartridge.FullTitle` | src/lib.rs:65-77 | when the file holds the whole field and no byte of it is NUL, the title is the 15 bytes at 0x0134..0x0142 in order |
| `Cartridge.ShortImageHasEmptyTitle` | src/lib.rs:66-75 | a file that ends at or before 0x0134 has an empty title (absent addresses are skipped) |
| `Cartridge.TitleUpToDependsOnFieldOnly` | src/lib.rs:66-67 | two files with the same bytes in the title field have the same title, whatever else they hold |
| `Cartridge.TitleSkipsNul` | src/lib.rs:69-73 | a field "AB", NUL, "CD", NULs gives the title "ABCD": a NUL is skipped, not a terminator |
| `Cartridge.ReadTitle` | src/lib.rs:65-77 | the title loop over the address map yields exactly `Title` of the file the map indexes |
| `Cartridge.CartTypeOf` | src/lib.rs:141-172 | a code decodes exactly when it is one of the 28 listed codes; a decoded type encodes back to its code; any other code fails with UnknownCartType carrying that code |
| `Cartridge.CartTypeRoundTrip` | src/lib.rs:18-47 | every cartridge type has a listed code and the table decodes that code back to the type |
| `Cartridge.RomSizeOf` | src/lib.rs:87-98 | codes 0x00..0x08 decode, giving size 32768 << c and 2 << c banks, so size = banks * 16384; any other code fails with InvalidRomSize carrying it |
| `Cartridge.RamSizeOf` | src/lib.rs:103-110 | exactly codes 0, 2, 3, 4, 5 decode, to 0, 1, 4, 16 and 8 banks respectively, with size = banks * 8192; code 1 and codes above 5 fail with InvalidRamSize carrying the code |
| `Cartridge.RamSizeInjective` | src/lib.rs:103-108 | distinct valid RAM codes give distinct RAM sizes |
| `Cartridge.Decode` | src/lib.rs:64-119 | a loaded cartridge keeps the file as its data, fits the 32-bit address space, has a title of at most 15 non-NUL characters and sizes equal to banks times bank size |
| `Cartridge.DecodeSucceedsIff` | src/lib.rs:78-110 | loading succeeds if and only if the file fits the address counter, the type code is listed, the ROM code is at most 0x08 and the RAM code is 0, 2, 3, 4 or 5 (a missing byte counts as 0) |
| `Cartridge.DecodeError` | src/lib.rs:78-110 | the load fails with the first failing check, in the order type, ROM size, RAM size, each error carrying the offending code |
| `Cartridge.DecodeFields` | src/lib.rs:111-119 | a loaded cartridge's title is `Title`, its type encodes back to byte 0x0147, its ROM bank count is 2 << code and its RAM geometry is the table's entry |
| `Cartridge.ShortImageDefaults` | src/lib.rs:78-101 | a file too short to contain 0x0147 loads as ROM-only, 32768 bytes in 2 banks, no RAM |
| `Cartridge.UnknownCartTypeFails` | src/lib.rs:171 | type byte 0xEE fails the load with UnknownCartType(0xEE) |
| `Cartridge.TetrisTitle` | src/lib.rs:65-77 | a field "TETRIS" followed by NULs gives the title "TETRIS" |
| `Cartridge.TetrisHeader` | src/lib.rs:64-119 | a 32 KiB image with title "TETRIS" and zero type, ROM and RAM bytes loads as ROM-only, 32768 bytes, 2 banks, no RAM |
| `Cartridge.Load` | src/lib.rs:50-120 | the imperative loader (map loop, title loop, header lookups with missing bytes as 0) yields exactly `Decode` of the file, error cases included |
| `Processor.Inc16` | src/lib.rs:228 | incrementing the 16-bit pc gives pc + 1 modulo 0x10000 |
| `Processor.Step` | src/lib.rs:227-261 | the pure model of one `exec`: fetch the opcode at pc and dispatch on it; it has no contract of its own, and its meaning is stated by StepSucceedsIff, StepFrame, NopOnlyAdvancesPc and LdBcN16LoadsOperand |
| `Processor.StepSucceedsIff` | src/lib.rs:251-261 | a step succeeds if and only if the opcode at pc is 0x00 or 0x01; every failure is NotYetImplemented |
| `Processor.StepFrame` | src/lib.rs:227-237 | every successful step advances pc by the instruction's length (1 or 3) modulo 0x10000 and leaves A, D, E, F, H, L and SP unchanged |
| `Processor.NopOnlyAdvancesPc` | src/lib.rs:227-229 | with opcode 0x00, the new registers are the old ones with pc + 1 |
| `Processor.LdBcN16LoadsOperand` | src/lib.rs:231-237 | with opcode 0x01, B is the byte at pc+1, C the byte at pc+2, BC = B * 256 + C, and pc advances by exactly 3 when pc <= 0xFFFC |
| `Processor.LdBcN16ByteOrder` | src/lib.rs:232-235 | bytes 01 34 12 at pc give BC = 0x3412, not 0x1234 |
| `Processor.LdBcN16Wraps` | src/lib.rs:231-237 | LD BC,n16 at pc 0xFFFF reads its operands from 0x0000 and 0x0001 and leaves pc = 2 |
| `Processor.Cpu.constructor` | src/lib.rs:211-224 | reset state: all 8-bit registers 0, SP = 0xFFFE, PC = 0x0100 |
| `Processor.Cpu.Nop` | src/lib.rs:227-229 | pc becomes pc + 1 (mod 0x10000); the frame covers only pc, so nothing else changes |
| `Processor.Cpu.LdBcN16` | src/lib.rs:231-237 | B and C come from the bytes at pc+1 and pc+2 and pc becomes pc + 3 (mod 0x10000); only pc, B and C may change |
| `Processor.Cpu.LdBcA` | src/lib.rs:239-241 | the 0x02 stub fails with NotYetImplemented and changes nothing |
| `Processor.Cpu.IncBc` | src/lib.rs:243-245 | the 0x03 stub fails with NotYetImplemented and changes nothing |
| `Processor.Cpu.IncB` | src/lib.rs:247-249 | the 0x04 stub fails with NotYetImplemented and changes nothing |
| `Processor.Cpu.Exec` | src/lib.rs:251-261 | one execution succeeds exactly when `Step` does and then leaves the registers `Step` gives; on failure it reports `Step`'s error and every register is unchanged |
| `Processor.ResetThenNop` | src/lib.rs:211-229 | from reset, with NOP at 0x0100, one execution succeeds and leaves pc = 0x0101 and every other register at its reset value |

## Left out

- File I/O: `Rom::read_rom` and the file-reading loop's I/O-error panic (src/lib.rs:54-60, 122-131) are left out. The model takes the bytes already read as its input.
- `Rom::print_rom` (src/lib.rs:179-184) is output only and is left out.
- `Gui` and its `eframe::App` implementation (src/lib.rs:293-319) only display the registers. `Cpu.Regs()` is the snapshot they would read.
- `src/main.rs` handles arguments and starts the GUI. It calls `Cpu::new` and `MemBus::new` with arguments that do not match their declarations in src/lib.rs, so it is not part of this model.
- `MemBus`, `Ram` and `Vram` (src/lib.rs:264-291) only hold data, and their address dispatch is commented out. No address-range mapping, echo region or bank switching is modelled, because the code has none.
- `Rom::rom_size` and `Rom::get_title` (src/lib.rs:175-177, 186-188) are plain accessors. They are the `romSize` and `title` fields of `Rom`. `impl Default for Cpu` is the same as `Cpu::new`.
- The declared ROM and RAM sizes are never checked against the file's length, and the model adds no such check.
- Processor.Inc16: a debug build panics when pc is 0xFFFF; the model wraps around as a release build does.
- Cartridge.Index: a release build would wrap the address counter on a file of 2^32 bytes or more; the model reports AddressOverflow, as a debug build's panic would.
- Processor.Cpu.LdBcA, Processor.Cpu.IncBc and Processor.Cpu.IncB take `&mut self` in the source, but they panic before any change. The model gives them no `modifies` clause.
- Cycle counts, the rest of the instruction set, flags, the stack, the prefixed instruction table and halting do not exist in the code. They are not modelled.
- There is no "file too short" error: a short file loads with missing header bytes read as 0x00. There are no register-pair setters or getters either, so only the `BC` view used by LD BC,n16 is modelled.
- The panic for an unimplemented opcode does not say which opcode it was, so `NotYetImplemented` carries no opcode.
