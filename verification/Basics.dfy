// What several modules share.
module Basics {

  // The integers of the target are 32 bits wide.
  const WRAP: int := 0x1_0000_0000

  function Sum(x: bv32, y: bv32): bv32 { x + y }

  datatype Option<T> = None | Some(value: T)

  // Chunks put together again.
  function Joint<T>(chunks: seq<seq<T>>): seq<T>
    decreases |chunks|
  {
    if chunks == [] then [] else chunks[0] + Joint(chunks[1..])
  }
}
