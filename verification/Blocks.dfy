/** Bytes, 64-byte messages and the 32-bit counters shared by every other module. */
module Blocks {
  newtype byte = x: int | 0 <= x < 0x100

  type Bytes = seq<byte>

  // Size of the payload of one ring-buffer block.
  const BLOCK_SIZE: nat := 64

  const UINT32_LIMIT: nat := 0x1_0000_0000

  // The value a section's block count holds until its writer publishes it.
  const UINT32_MAX: nat := UINT32_LIMIT - 1

  // What one block carries: at most 64 bytes.
  type Message = m: Bytes | |m| <= BLOCK_SIZE

  // Arithmetic of a uint32_t.
  function Wrap(n: nat): nat {
    n % UINT32_LIMIT
  }

  lemma WrapAdd(a: nat, b: nat)
    ensures Wrap(Wrap(a) + b) == Wrap(a + b)
  {
  }

  // The block that closes a batch and ends the stream: 64 bytes of 0xFF.
  function Ones(): (m: Message)
    ensures |m| == BLOCK_SIZE
  {
    seq(BLOCK_SIZE, i => 0xFF)
  }

  function Last<T>(s: seq<T>): T
    requires s != []
  {
    s[|s| - 1]
  }

  function Front<T>(s: seq<T>): seq<T>
    requires s != []
  {
    s[..|s| - 1]
  }
}
