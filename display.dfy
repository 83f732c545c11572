/** The CHIP-8 frame buffer (`display::display::Display`): 64 x 32 pixels,
    one `u32` per pixel in a linear array. */
module Display {

  const Width: nat := 64
  const Height: nat := 32

  class Display {
    const buf: array<bv32>

    predicate Valid() {
      buf.Length == Width * Height
    }

    /** `Display::new`: every pixel starts at 1. */
    constructor ()
      ensures Valid() && fresh(buf)
      ensures forall k :: 0 <= k < buf.Length ==> buf[k] == 1
    {
      buf := new bv32[Width * Height](_ => 1);
    }

    /** `clear_buf`: every pixel becomes 0, whatever it held before; so a
        second call changes nothing. */
    method ClearBuf()
      requires Valid()
      modifies buf
      ensures forall k :: 0 <= k < buf.Length ==> buf[k] == 0
    {
      for k := 0 to buf.Length
        invariant forall j :: 0 <= j < k ==> buf[j] == 0
      {
        buf[k] := 0;
      }
    }

    /** `clear`: clear the buffer, then show it; showing it only prints and
        leaves every pixel 0. */
    method Clear()
      requires Valid()
      modifies buf
      ensures forall k :: 0 <= k < buf.Length ==> buf[k] == 0
    {
      ClearBuf();
    }
  }

  /** The unit test `check_clear_buf`, and a second call showing that
      clearing is idempotent. */
  method CheckClearBuf()
  {
    var disp := new Display();
    disp.ClearBuf();
    assert forall k :: 0 <= k < disp.buf.Length ==> disp.buf[k] == 0;
    ghost var once := disp.buf[..];
    disp.ClearBuf();
    assert disp.buf[..] == once;
  }
}
