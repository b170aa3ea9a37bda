/**
 The `huge_mem_alloc` buffer built once at start-up and shared, read-only,
 with every reconcile.
 */
module SharedBuffer {

  /** Rust's `u8`. */
  newtype u8 = x: int | 0 <= x < 256

  /** Rust's `as u8` on an unsigned integer: keeps the low eight bits. */
  function TruncateToU8(x: nat): u8 {
    (x % 256) as u8
  }

  /** The intended contents: byte `i` is `(i + 9) as u8`. */
  ghost predicate IsFillPattern(buf: seq<u8>, size: nat) {
    |buf| == size && forall i :: 0 <= i < size ==> buf[i] as int == (i + 9) % 256
  }

  /** The fill loop of start-up: push `(i + 9) as u8` for every `i` below
      `heapMemSize`, starting from an empty vector. */
  method FillHugeMemAlloc(heapMemSize: nat) returns (buf: seq<u8>)
    ensures IsFillPattern(buf, heapMemSize)
  {
    buf := [];
    var i := 0;
    while i < heapMemSize
      invariant i <= heapMemSize
      invariant |buf| == i
      invariant forall j :: 0 <= j < i ==> buf[j] as int == (j + 9) % 256
    {
      buf := buf + [TruncateToU8(i + 9)];
      i := i + 1;
    }
  }

  /** Two buffers filled for the same size are the same buffer. */
  lemma FillPatternUnique(a: seq<u8>, b: seq<u8>, size: nat)
    requires IsFillPattern(a, size) && IsFillPattern(b, size)
    ensures a == b
  {
    assert forall i :: 0 <= i < size ==> a[i] == b[i];
  }
}
