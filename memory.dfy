/** Memory the glue hands to LVGL: the statically reserved objects of the
    static allocation mode, and an abstract heap standing for
    LV_MEM_CUSTOM_ALLOC / LV_MEM_CUSTOM_FREE in the dynamic mode. */
module Memory {

  /** The file-scope objects reserved at build time: disp_buf, buf0, buf1. */
  datatype StaticObject = DispBuf | Buf0 | Buf1

  /** A pointer: NULL, the address of a static object, or a heap block. */
  datatype Ptr = Null | Static(obj: StaticObject) | Block(id: nat)

  /** The heap as the set of live blocks (identity -> size in bytes).
      Whether an allocation succeeds is not determined by the model. */
  class Heap {
    var live: map<nat, nat>
    var next: nat

    ghost predicate Valid()
      reads this
    {
      forall id :: id in live ==> id < next
    }

    constructor ()
      ensures Valid() && live == map[]
    {
      live, next := map[], 0;
    }

    /** Allocates `size` bytes or returns NULL. */
    method Alloc(size: nat) returns (p: Ptr)
      requires Valid()
      modifies this
      ensures Valid()
      ensures p == Null || p.Block?
      ensures p == Null ==> live == old(live)
      ensures p.Block? ==> p.id !in old(live) && live == old(live)[p.id := size]
    {
      if * {
        p := Null;
      } else {
        p := Block(next);
        live := live[next := size];
        next := next + 1;
      }
    }

    /** Releases a live block; releasing NULL does nothing. */
    method Free(p: Ptr)
      requires Valid()
      requires p == Null || (p.Block? && p.id in live)
      modifies this
      ensures Valid()
      ensures live == if p.Block? then old(live) - {p.id} else old(live)
    {
      if p.Block? {
        live := live - {p.id};
      }
    }
  }
}
