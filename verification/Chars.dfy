/** The special characters of the key and token handling, and the size of the buffers they go through. */
module Chars {
  const NUL := 0 as char
  const CR := 13 as char
  const DEL := 127 as char
  const QUOTE := '\"'

  /** The declared size of `work_buffer` and of `input_buffer`. */
  const INPUT_BUFFER_SIZE := 60

  /** The higher of two cells. */
  function Max(a: int, b: int): int {
    if a < b then b else a
  }
}
