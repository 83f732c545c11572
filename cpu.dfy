/** The CHIP-8 interpreter state (`cpu::cpu::Cpu`) with fetch and, in this
    snapshot, a decoder that knows only `00E0` (clear screen). */
module Cpu {
  import opened Types
  import Mem

  const ProgramAddress: u16 := 0x200
  const ClearScreen: bv16 := 0x00E0

  /** The instruction word built from two memory bytes, most significant
      first: `((byte1 as u16) << 8) | byte2 as u16`. Splitting it again the
      way the unit test lays instructions out gives back both bytes. */
  function Compose(hi: bv8, lo: bv8): (r: bv16)
    ensures HighByte(r) == hi && LowByte(r) == lo
  {
    ((hi as bv16) << 8) | (lo as bv16)
  }

  /** `((instr >> 8) & 0xFF) as u8` */
  function HighByte(w: bv16): bv8 {
    ((w >> 8) & 0xFF) as bv8
  }

  /** `(instr & 0xFF) as u8` */
  function LowByte(w: bv16): bv8 {
    (w & 0xFF) as bv8
  }

  /** Every instruction word is the composition of its two bytes, so memory
      laid out with HighByte/LowByte fetches back as the same word. */
  lemma SplitCompose(w: bv16)
    ensures Compose(HighByte(w), LowByte(w)) == w
  {
  }

  class Cpu {
    var pc: u16               // program counter
    var i: u16                // index register
    const v: array<bv8>       // V0-VF
    var stack: seq<u16>       // call stack, not used by the operations here

    predicate Valid() {
      v.Length == 16
    }

    /** `Cpu::new`: execution starts at 0x200 with every register zero and
        an empty stack. */
    constructor ()
      ensures Valid() && fresh(v)
      ensures pc == ProgramAddress && i == 0 && stack == []
      ensures forall k :: 0 <= k < v.Length ==> v[k] == 0
    {
      pc := ProgramAddress;
      i := 0;
      v := new bv8[16](_ => 0);
      stack := [];
    }

    /** `fetch`: read the bytes at `pc` and `pc + 1`, compose them big-endian
        and advance `pc` by one instruction. If either byte is past the end of
        memory (that is, `pc >= 4095`) it fails and `pc` keeps its value. */
    method Fetch(mem: Mem.Memory) returns (r: Result<bv16>)
      requires Valid() && mem.Valid()
      modifies this`pc
      ensures r.Ok? <==> old(pc) as int + 1 < Mem.MemSize
      ensures r.Ok? ==> r.value == Compose(mem.mem[old(pc)], mem.mem[old(pc) + 1])
      ensures r.Ok? ==> pc as int == old(pc) as int + 2
      ensures r.Err? ==> r.error == FetchFailed(InvalidReadAddress) && pc == old(pc)
      ensures i == old(i) && stack == old(stack)
    {
      var byte1: bv8;
      match mem.Read(pc as nat) {
        case Ok(b) => byte1 := b;
        case Err(e) => return Err(FetchFailed(e));
      }
      var byte2: bv8;
      match mem.Read((pc + 1) as nat) {
        case Ok(b) => byte2 := b;
        case Err(e) => return Err(FetchFailed(e));
      }
      var instruction := Compose(byte1, byte2);
      pc := pc + 2;
      return Ok(instruction);
    }

    /** `decode`: only `00E0` is recognised; every other word is an unknown
        instruction, reported with its value. Decoding changes no state. */
    function Decode(instr: bv16): (r: Result<int>)
      ensures r.Ok? <==> instr == ClearScreen
      ensures r.Ok? ==> r.value == 0
      ensures r.Err? ==> r.error == UnknownInstruction(instr)
    {
      if instr == ClearScreen then Ok(0) else Err(UnknownInstruction(instr))
    }
  }

  /** The unit test `check_fetch`: two consecutive fetches from 0x200 return
      `00E0` and `70AB`, with `pc` at 0x202 in between. */
  method CheckFetch()
  {
    var cpu := new Cpu();
    var instr1: bv16 := 0x00E0;
    var instr2: bv16 := 0x70AB;
    var image := Mem.Zeros(Mem.MemSize)[0x200 := HighByte(instr1)][0x201 := LowByte(instr1)]
                                       [0x202 := HighByte(instr2)][0x203 := LowByte(instr2)];
    var mem := new Mem.Memory.FromImage(image);
    var r1 := cpu.Fetch(mem);
    SplitCompose(instr1);
    assert r1 == Ok(instr1);
    assert cpu.pc == ProgramAddress + 2;
    var r2 := cpu.Fetch(mem);
    SplitCompose(instr2);
    assert r2 == Ok(instr2);
  }

  /** The unit test `check_invalid_addr`: fetching at 4106 fails. */
  method CheckInvalidAddr()
  {
    var cpu := new Cpu();
    var mem := new Mem.Memory.FromImage(Mem.Zeros(Mem.MemSize));
    cpu.pc := 4096 + 10;
    var r := cpu.Fetch(mem);
    assert r.Err?;
  }

  /** The unit test `check_decode`. */
  method CheckDecode()
  {
    var cpu := new Cpu();
    assert cpu.Decode(0x00E0).Ok?;
    assert cpu.Decode(0x9000).Err?;
  }
}
