// The formula memory (tracer/dep_tracer/memory.go): one provenance byte per
// EVM memory byte, grown in 32-byte words as writes and reads reach past the
// end, new bytes carrying the init-zero constant.
module FormulaMemory {
  import opened Common
  import opened Formulas
  import opened DepBytes

  /** The size `Extend` grows to: `size` rounded up to a multiple of 32. */
  function RoundUp32(size: nat): (r: nat)
    ensures r % 32 == 0 && size <= r < size + 32
    ensures size % 32 == 0 ==> r == size
  {
    if size % 32 != 0 then (size / 32 + 1) * 32 else size
  }

  /** The memory after `Extend(size)`. */
  function Extended(p: Prims, m: seq<DEPByte>, size: nat): seq<DEPByte>
  {
    var target := RoundUp32(size);
    if target <= |m| then m else m + InitBytes(p, target - |m|)
  }

  /**
   * `Extend` sets the length to the larger of the old length and the rounded
   * size, never shrinks, keeps the old bytes and fills new ones with init-zero;
   * a length that was a multiple of 32 stays one.
   */
  lemma ExtendedShape(p: Prims, m: seq<DEPByte>, size: nat)
    ensures var e := Extended(p, m, size);
      && |e| == (if RoundUp32(size) <= |m| then |m| else RoundUp32(size))
      && e[..|m|] == m
      && (forall i :: |m| <= i < |e| ==> e[i] == InitZero(p))
      && (|m| % 32 == 0 ==> |e| % 32 == 0)
  {
  }

  /** Extending to a size already covered changes nothing. */
  lemma ExtendedCovered(p: Prims, m: seq<DEPByte>, a: nat, b: nat)
    requires b <= a
    ensures Extended(p, Extended(p, m, a), b) == Extended(p, m, a)
  {
  }

  /** The memory after `SetN(offset, value)`; an empty value touches nothing. */
  function AfterSetN(p: Prims, m: seq<DEPByte>, offset: nat, value: seq<DEPByte>): seq<DEPByte>
  {
    if |value| == 0 then m
    else
      var e := Extended(p, m, offset + |value|);
      e[..offset] + value + e[offset + |value|..]
  }

  /** `Load(offset, size)`: the memory after the load, and the bytes it returns. */
  function LoadResult(p: Prims, m: seq<DEPByte>, offset: nat, size: nat): (seq<DEPByte>, seq<DEPByte>)
  {
    if size == 0 then (m, [])
    else
      var e := Extended(p, m, offset + size);
      (e, e[offset..offset + size])
  }

  /** What `SetN` writes, `Load` reads back at the same place. */
  lemma {:induction false} LoadAfterSetN(p: Prims, m: seq<DEPByte>, offset: nat, value: seq<DEPByte>)
    ensures LoadResult(p, AfterSetN(p, m, offset, value), offset, |value|).1 == value
  {
    if |value| > 0 {
      var m1 := AfterSetN(p, m, offset, value);
      var e := Extended(p, m, offset + |value|);
      assert |m1| == |e| >= offset + |value|;
      assert Extended(p, m1, offset + |value|) == m1;
      assert m1[offset..offset + |value|] == value;
    }
  }

  /** `SetN` leaves every byte outside `[offset, offset+|value|)` as it was (or init-zero if new). */
  lemma SetNFrame(p: Prims, m: seq<DEPByte>, offset: nat, value: seq<DEPByte>, i: nat)
    requires i < |AfterSetN(p, m, offset, value)|
    requires i < offset || i >= offset + |value|
    ensures AfterSetN(p, m, offset, value)[i] == if i < |m| then m[i] else InitZero(p)
  {
  }

  class Memory {
    var data: seq<DEPByte>
    const p: Prims

    ghost predicate Valid()
      reads this
    {
      |data| % 32 == 0
    }

    /** `MemoryNew`. */
    constructor (p: Prims)
      ensures Valid() && data == [] && this.p == p
    {
      data := [];
      this.p := p;
    }

    /** `Copy`: a new memory with equal bytes. */
    method Copy() returns (res: Memory)
      requires Valid()
      ensures fresh(res) && res.Valid() && res.data == data && res.p == p
    {
      res := new Memory(p);
      res.data := data;
    }

    method Extend(size: nat)
      requires Valid()
      modifies this
      ensures Valid() && data == Extended(p, old(data), size)
    {
      var target := size;
      if target % 32 != 0 {
        target := (target / 32 + 1) * 32;
      }
      if target <= |data| {
        return;
      }
      var l := target - |data|;
      ghost var start := data;
      var i := 0;
      while i < l
        invariant 0 <= i <= l
        invariant data == start + InitBytes(p, i)
      {
        data := data + [InitZero(p)];
        i := i + 1;
      }
    }

    /** `Set`: one byte at `offset`, after extending to cover it. */
    method Set(offset: nat, value: DEPByte)
      requires Valid()
      modifies this
      ensures Valid() && data == Extended(p, old(data), offset + 1)[offset := value]
    {
      Extend(offset + 1);
      data := data[offset := value];
    }

    /** `Set32`: 32 bytes at `offset`. */
    method Set32(offset: nat, value: seq<DEPByte>)
      requires Valid() && |value| == 32
      modifies this
      ensures Valid() && data == AfterSetN(p, old(data), offset, value)
    {
      Extend(offset + 32);
      data := data[..offset] + value + data[offset + 32..];
    }

    method SetN(offset: nat, value: seq<DEPByte>)
      requires Valid()
      modifies this
      ensures Valid() && data == AfterSetN(p, old(data), offset, value)
    {
      if |value| < 1 {
        return;
      }
      Extend(offset + |value|);
      data := data[..offset] + value + data[offset + |value|..];
    }

    method Load(offset: nat, size: nat) returns (r: seq<DEPByte>)
      requires Valid()
      modifies this
      ensures Valid() && (data, r) == LoadResult(p, old(data), offset, size)
    {
      if size < 1 {
        return [];
      }
      Extend(offset + size);
      r := data[offset..offset + size];
    }
  }
}
