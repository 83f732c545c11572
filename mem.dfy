/** The CHIP-8 address space (`mem::mem::Memory`): 4096 bytes, the system font
    at 0x50 and the loaded program from 0x200 on. */
module Mem {
  import opened Types

  const MemSize: nat := 4096
  const ProgramAddress: nat := 0x200
  const FontAddress: nat := 0x50
  const FontHeight: nat := 5

  /** The sixteen hexadecimal digit glyphs, five rows of one byte each. */
  const FontArray: seq<bv8> := [
    0xF0, 0x90, 0x90, 0x90, 0xF0, // 0
    0x20, 0x60, 0x20, 0x20, 0x70, // 1
    0xF0, 0x10, 0xF0, 0x80, 0xF0, // 2
    0xF0, 0x10, 0xF0, 0x10, 0xF0, // 3
    0x90, 0x90, 0xF0, 0x10, 0x10, // 4
    0xF0, 0x80, 0xF0, 0x10, 0xF0, // 5
    0xF0, 0x80, 0xF0, 0x90, 0xF0, // 6
    0xF0, 0x10, 0x20, 0x40, 0x40, // 7
    0xF0, 0x90, 0xF0, 0x90, 0xF0, // 8
    0xF0, 0x90, 0xF0, 0x10, 0xF0, // 9
    0xF0, 0x90, 0xF0, 0x90, 0x90, // A
    0xE0, 0x90, 0xE0, 0x90, 0xE0, // B
    0xF0, 0x80, 0x80, 0x80, 0xF0, // C
    0xE0, 0x90, 0x90, 0x90, 0xE0, // D
    0xF0, 0x80, 0xF0, 0x80, 0xF0, // E
    0xF0, 0x80, 0xF0, 0x80, 0x80  // F
  ]

  function Zeros(n: nat): (r: seq<bv8>)
    ensures |r| == n && forall k :: 0 <= k < n ==> r[k] == 0
  {
    seq(n, _ => 0)
  }

  /** The image `m` with `data` copied over it from address `at` on: the bytes
      in `[at, at + |data|)` come from `data`, every other byte is untouched. */
  function Overlay(m: seq<bv8>, at: nat, data: seq<bv8>): (r: seq<bv8>)
    requires at + |data| <= |m|
    ensures |r| == |m|
    ensures forall a :: 0 <= a < |m| ==>
      r[a] == if at <= a < at + |data| then data[a - at] else m[a]
  {
    m[..at] + data + m[at + |data|..]
  }

  /** Memory as `Memory::new` leaves it: the font at 0x50, zero elsewhere. */
  function InitialImage(): (r: seq<bv8>)
    ensures |r| == MemSize
    ensures forall a :: 0 <= a < MemSize ==>
      r[a] == if FontAddress <= a < FontAddress + |FontArray| then FontArray[a - FontAddress] else 0
  {
    Overlay(Zeros(MemSize), FontAddress, FontArray)
  }

  /** In a memory that holds the initial image, the five bytes at the address
      that `get_font_addr` gives for `font` are the glyph of its low nibble. */
  lemma FontGlyphInMemory(m: Memory, font: bv8)
    requires m.Valid() && m.mem[..] == InitialImage()
    ensures var start := m.GetFontAddr(font);
            var n := font as int % 16;
            m.mem[start..start + FontHeight] == FontArray[FontHeight * n..FontHeight * n + FontHeight]
  {
    var start := m.GetFontAddr(font);
    var n := font as int % 16;
    var glyph := m.mem[start..start + FontHeight];
    var expected := FontArray[FontHeight * n..FontHeight * n + FontHeight];
    forall j | 0 <= j < FontHeight
      ensures glyph[j] == expected[j]
    {
      assert glyph[j] == m.mem[..][start + j];
    }
  }

  class Memory {
    /** The 4096-byte array (`mem: [u8; 4096]`), updated in place. */
    const mem: array<bv8>

    predicate Valid() {
      mem.Length == MemSize
    }

    /** `Memory::new`: zero the array, then load the font. */
    constructor ()
      ensures Valid() && fresh(mem)
      ensures mem[..] == InitialImage()
    {
      mem := new bv8[MemSize](_ => 0);
      new;
      LoadFont();
      assert mem[..] == Overlay(Zeros(MemSize), FontAddress, FontArray);
    }

    /** The struct literal `Memory { mem: image }` that the unit tests build,
        bypassing the font. */
    constructor FromImage(image: seq<bv8>)
      requires |image| == MemSize
      ensures Valid() && fresh(mem)
      ensures mem[..] == image
    {
      mem := new bv8[|image|](k requires 0 <= k < |image| => image[k]);
    }

    /** `load_font`: copy the 80 glyph bytes to 0x50 onwards. */
    method LoadFont()
      requires Valid()
      modifies mem
      ensures mem[..] == Overlay(old(mem[..]), FontAddress, FontArray)
    {
      for k := 0 to |FontArray|
        invariant forall a :: 0 <= a < MemSize ==>
          mem[a] == if FontAddress <= a < FontAddress + k then FontArray[a - FontAddress] else old(mem[a])
      {
        mem[FontAddress + k] := FontArray[k];
      }
      assert forall a :: 0 <= a < MemSize ==>
        mem[..][a] == Overlay(old(mem[..]), FontAddress, FontArray)[a];
    }

    /** `load_program`: reject a program longer than the space above 0x200
        (3584 bytes) without touching memory, otherwise copy it to 0x200. */
    method LoadProgram(program: seq<bv8>) returns (r: Result<int>)
      requires Valid()
      modifies mem
      ensures r.Ok? <==> |program| <= MemSize - ProgramAddress
      ensures r.Ok? ==> r.value == 0 && mem[..] == Overlay(old(mem[..]), ProgramAddress, program)
      ensures r.Err? ==> r.error == ProgramTooLarge && mem[..] == old(mem[..])
    {
      if |program| > mem.Length - ProgramAddress {
        return Err(ProgramTooLarge);
      }
      var i := ProgramAddress;
      for k := 0 to |program|
        invariant i == ProgramAddress + k
        invariant forall a :: 0 <= a < MemSize ==>
          mem[a] == if ProgramAddress <= a < i then program[a - ProgramAddress] else old(mem[a])
      {
        mem[i] := program[k];
        i := i + 1;
      }
      assert forall a :: 0 <= a < MemSize ==>
        mem[..][a] == Overlay(old(mem[..]), ProgramAddress, program)[a];
      return Ok(0);
    }

    /** `get_font_addr`: the address of the glyph for the low nibble of
        `font`; the whole five-byte glyph lies inside the font table. */
    function GetFontAddr(font: bv8): (r: nat)
      ensures r == FontAddress + FontHeight * (font as int % 16)
      ensures FontAddress <= r <= FontAddress + 75
      ensures r + FontHeight <= FontAddress + |FontArray|
    {
      FontAddress + FontHeight * (font & 0xF) as int
    }

    /** `read`: the byte at `addr`, or an error when `addr` is past the end. */
    function Read(addr: nat): (r: Result<bv8>)
      requires Valid()
      reads mem
      ensures r.Ok? <==> addr < MemSize
      ensures r.Ok? ==> r.value == mem[addr]
      ensures r.Err? ==> r.error == InvalidReadAddress
    {
      if addr >= MemSize then Err(InvalidReadAddress) else Ok(mem[addr])
    }
  }

  /** The unit test `check_invalid_size`: a 4000-byte program is rejected. */
  method CheckInvalidSize()
  {
    var m := new Memory.FromImage(Zeros(MemSize));
    var r := m.LoadProgram(seq(4000, _ => 0));
    assert r.Err?;
  }

  /** The unit test `check_load`: after loading 400 bytes of 0x8, the first and
      last program bytes read back as 0x8. */
  method CheckLoad()
  {
    var m := new Memory.FromImage(Zeros(MemSize));
    var prog: seq<bv8> := seq(400, _ => 0x8);
    var r := m.LoadProgram(prog);
    assert r.Ok?;
    assert m.Read(ProgramAddress) == Ok(0x8);
    assert m.Read(ProgramAddress + |prog| - 1) == Ok(0x8);
  }

  /** The unit test `get_font_addr`: digit 4's glyph is 20 bytes past 0x50. */
  method GetFontAddrTest()
  {
    var m := new Memory();
    assert m.GetFontAddr(0x4) == FontAddress + 0x4 * FontHeight;
    FontGlyphInMemory(m, 0x4);
    assert m.mem[FontAddress + 20..FontAddress + 25] == FontArray[20..25];
  }
}
