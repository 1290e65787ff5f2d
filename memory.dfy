/** The C allocator shared by host and plugin: `malloc`, `free`, and the
    bytes a pointer designates. */
module Memory {
  import opened Bytes

  /** A raw pointer: null, or the start of an allocated block. */
  datatype Ptr = Null | Addr(a: nat)

  /** The live blocks of the process heap. `next` only grows, so every
      allocation gets an address that is not in use and never was. */
  class Heap {
    var blocks: map<nat, seq<byte>>
    var next: nat

    ghost predicate Valid()
      reads this
    {
      forall a :: a in blocks ==> a < next
    }

    constructor ()
      ensures Valid() && blocks == map[]
    {
      blocks := map[];
      next := 0;
    }

    /** `p` points at a block that has not been freed. */
    predicate Live(p: Ptr)
      reads this
    {
      p.Addr? && p.a in blocks
    }

    /** `p` points at a NUL-terminated C string. */
    predicate IsCStr(p: Ptr)
      reads this
    {
      Live(p) && 0 in blocks[p.a]
    }

    /** `malloc(|content|)` followed by `memcpy` of `content` into the new block. */
    method Malloc(content: seq<byte>) returns (p: Ptr)
      requires Valid()
      modifies this
      ensures Valid() && p.Addr? && p.a !in old(blocks)
      ensures blocks == old(blocks)[p.a := content]
    {
      p := Addr(next);
      blocks := blocks[next := content];
      next := next + 1;
    }

    /** `free(p)`; freeing a block twice, or a pointer that is not the start
        of a live block, is undefined behaviour. */
    method Free(p: Ptr)
      requires Valid() && Live(p)
      modifies this
      ensures Valid() && blocks == old(blocks) - {p.a}
    {
      blocks := blocks - {p.a};
    }
  }
}
