# CHIP-8 interpreter core, modelled in Dafny

This project models the core of an early snapshot of a CHIP-8 interpreter
written in Rust. The snapshot has four components. Each is one Dafny module
with one class:

- **Memory** (`mem.dfy`, module `Mem`): the 4096-byte address space, held in
  an `array<bv8>` that is updated in place. `Memory::new` zeroes it and copies
  the 80-byte font table to 0x50. `load_program` copies a program to 0x200,
  or rejects it if it is longer than 3584 bytes. `read` is bounds-checked.
  `get_font_addr` maps a nibble to its glyph address. The copy loops are
  proved against one specification function, `Overlay`: an image with a block
  of bytes written over it at a given address.
- **Cpu** (`cpu.dfy`, module `Cpu`): the architectural state. The program
  counter, the index register, sixteen 8-bit registers and a stack. `fetch`
  composes two bytes big-endian and advances `pc` by 2. It fails, leaving
  `pc` alone, when either byte lies past the end of memory. In this snapshot
  `decode` accepts only `00E0`.
- **Timer** (`timer.dfy`, module `Timer`): the 8-bit delay counter with set,
  get and a saturating one-tick decrement. The lemma `TicksSaturate` proves
  that `k` ticks from `d` give `max(d - k, 0)`.
- **Display** (`display.dfy`, module `Display`): the 64 x 32 pixel buffer.
  There is one `u32` per pixel, and every pixel starts at 1. `clear_buf`
  zeroes the buffer in place.

`types.dfy` holds the shared `u16` newtype and the `Error`/`Result` values.
The Rust code returns these errors as strings. Bytes are `bv8`, so a
decrement that wrapped 0 to 255 would show in the model. `pc` and `i` are an
integer `u16` newtype, so every addition to `pc` carries an obligation that
it does not overflow. Rust checks the same thing at run time in debug builds; a release build would wrap instead, although no overflow is reachable in `fetch`.

Each module ends with client methods that restate the Rust unit tests:
`CheckInvalidSize`, `CheckLoad`, `GetFontAddrTest`, `CheckFetch`,
`CheckInvalidAddr`, `CheckDecode`, `CheckIterations` and `CheckClearBuf`.
Their assertions follow from the contracts alone. `CheckClearBuf` also
clears the buffer a second time and shows that this changes nothing.

This is an early snapshot, and it covers less than the full CHIP-8
architecture:
- `decode` handles a single opcode, `00E0`.
- There is a delay timer but no sound timer.
- Pixels are `u32` values, and a new display starts with every pixel at 1.

## Model

| member | source | states |
|---|---|---|
| `Mem.Overlay` | chip8/src/mem/mem.rs:24-28 | the bytes in `[at, at + len)` are the copied data; every other byte keeps its old value; the length is unchanged |
| `Mem.InitialImage` | chip8/src/mem/mem.rs:12-16 | a 4096-byte image holding the font at `0x50 + j` for `j < 80`; every other byte is 0 |
| `Mem.FontGlyphInMemory` | chip8/src/mem/mem.rs:34-61 | in a memory holding the initial image, the 5 bytes at `get_font_addr(f)` are the glyph of digit `f & 0xF` in the font table |
| `Mem.Memory.constructor` | chip8/src/mem/mem.rs:12-16 | fresh memory is exactly `InitialImage()` |
| `Mem.Memory.FromImage` | chip8/src/mem/mem.rs:7-9 | the struct literal the tests use: memory holds the given 4096 bytes, with no font |
| `Mem.Memory.LoadFont` | chip8/src/mem/mem.rs:34-57 | the 80 font bytes are written at 0x50; every other byte is unchanged |
| `Mem.Memory.LoadProgram` | chip8/src/mem/mem.rs:19-31 | succeeds (with 0) iff `len(p) <= 4096 - 0x200`; on success `mem[0x200 + k] == p[k]` and every byte outside the program range is unchanged, the font included; on failure it returns `ProgramTooLarge` and memory is entirely unchanged |
| `Mem.Memory.GetFontAddr` | chip8/src/mem/mem.rs:59-61 | the result is `0x50 + 5 * (f mod 16)`; it lies in `[0x50, 0x50 + 75]`, so the whole glyph fits inside the font table |
| `Mem.Memory.Read` | chip8/src/mem/mem.rs:63-69 | succeeds iff `addr < 4096` and then returns `mem[addr]`; otherwise it returns `InvalidReadAddress`; it is a function, so memory is not modified |
| `Cpu.Compose` | chip8/src/cpu/cpu.rs:38 | the high byte of the word is the byte at `pc` and the low byte is the byte at `pc + 1` (big-endian) |
| `Cpu.SplitCompose` | chip8/src/cpu/cpu.rs:68-74 | composing a word's high and low bytes, as the test lays them out in memory, gives the word back |
| `Cpu.Cpu.constructor` | chip8/src/cpu/cpu.rs:15-23 | `pc == 0x200`, `i == 0`, all 16 `v` registers are 0 and the stack is empty |
| `Cpu.Cpu.Fetch` | chip8/src/cpu/cpu.rs:27-44 | succeeds iff `pc + 1 < 4096`; on success it returns the big-endian word at `pc`, `pc + 1` and advances `pc` by exactly 2; on failure it returns `FetchFailed(InvalidReadAddress)` and `pc` is unchanged; `i`, `v` and the stack never change |
| `Cpu.Cpu.Decode` | chip8/src/cpu/cpu.rs:46-54 | Ok iff `instr == 0x00E0`; any other word gives `UnknownInstruction(instr)`; no CPU state changes |
| `Timer.Decremented` | chip8/src/timer/timer.rs:36-41 | one tick lowers a positive counter by exactly 1 and leaves 0 at 0 (no wrap to 255) |
| `Timer.TicksSaturate` | chip8/src/timer/timer.rs:59-66 | `k` successive ticks from `d` give `max(d - k, 0)` |
| `Timer.Timer.constructor` | chip8/src/timer/timer.rs:11-14 | a new timer has `delay == 0` |
| `Timer.Timer.SetDelay` | chip8/src/timer/timer.rs:26-29 | afterwards `delay` is the given value |
| `Timer.Timer.GetDelay` | chip8/src/timer/timer.rs:31-34 | returns `delay` and changes nothing, so it reads back what `SetDelay` stored |
| `Timer.Timer.OneIteration` | chip8/src/timer/timer.rs:36-41 | the counter becomes `Decremented` of its old value |
| `Display.Display.constructor` | chip8/src/display/display.rs:1-15 | the buffer has `64 * 32 = 2048` entries, all 1 |
| `Display.Display.ClearBuf` | chip8/src/display/display.rs:22-26 | every pixel is 0 afterwards, whatever it held before, so a second call changes nothing |
| `Display.Display.Clear` | chip8/src/display/display.rs:17-20 | every pixel is 0 afterwards; showing the buffer does not alter it |

## Left out

- `main.rs` is left out: argument parsing, reading the program file, `exit`, and the fetch/decode loop with its sleep are orchestration and I/O.
- `audio.rs` is left out: it wraps an SDL2 audio device and a floating-point square-wave callback.
- The timer thread is left out: the thread spawned by `Timer::new` and `Timer::thread_loop` are concurrency and wall-clock sleeps. Ticks are explicit calls to `OneIteration`, and the `Mutex<u8>` is a plain field.
- `Display::update_display` is left out: it only prints the buffer to the console. `Clear` models `clear` as `clear_buf` followed by that output.
- The `println!` in `decode` is left out, because it is only a side effect.
- Error message texts are not modelled. Errors are `Error` values that say which failure occurred.
- `Cpu.stack` (a `LinkedList<u16>`) is a `seq<u16>`. No modelled operation uses it, and `Fetch` leaves it unchanged.
- `Cpu.Compose`: the contract gives the word through its high and low bytes, not as the integer `256 * hi + lo`. Both say the same thing, but the integer form is costly for the solver on bit-vectors.
