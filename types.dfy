/** Types shared by the CHIP-8 components: machine integer widths and the
    error values that the Rust code reports as `Err(String)`. */
module Types {

  /** Rust `u16`: the program counter and the index register. Arithmetic on it
      must stay in range, as Rust's checked arithmetic demands. */
  newtype u16 = x: int | 0 <= x < 0x1_0000

  /** What went wrong. The Rust code returns message strings; the model keeps
      only which failure it was (and the offending value where there is one). */
  datatype Error =
    | ProgramTooLarge                  // load_program: "Program is too large."
    | InvalidReadAddress               // read: "Invalid read address."
    | FetchFailed(cause: Error)        // fetch: "Fetch failed" + the read error
    | UnknownInstruction(instr: bv16)  // decode: "Unknown instruction: " + instr

  datatype Result<T> = Ok(value: T) | Err(error: Error)
}
