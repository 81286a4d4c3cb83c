// The formula stack (tracer/dep_tracer/stack.go): one 32-byte entry of
// provenance bytes per EVM stack word, top of stack last.
module FormulaStack {
  import opened Common
  import opened Formulas
  import opened DepBytes

  type Entry = s: seq<DEPByte> | |s| == 32 witness seq(32, _ => DEPByte(0, ZERO_HASH))

  /** The entry `PushN` builds: init-zero bytes on the left, `val` on the right. */
  function Padded(p: Prims, val: seq<DEPByte>): Entry
    requires |val| <= 32
  {
    InitBytes(p, 32 - |val|) + val
  }

  /** The stack after `Swap(n)`: the top and the n-th entry from the top exchanged. */
  function Swapped(s: seq<Entry>, n: nat): (r: seq<Entry>)
    requires 1 <= n <= |s|
    ensures |r| == |s|
  {
    s[|s| - n := s[|s| - 1]][|s| - 1 := s[|s| - n]]
  }

  lemma SwappedEffect(s: seq<Entry>, n: nat)
    requires 1 <= n <= |s|
    ensures Swapped(s, n)[|s| - 1] == s[|s| - n] && Swapped(s, n)[|s| - n] == s[|s| - 1]
    ensures forall i :: 0 <= i < |s| && i != |s| - 1 && i != |s| - n ==> Swapped(s, n)[i] == s[i]
  {
  }

  /** Swapping twice with the same depth restores the stack. */
  lemma SwappedTwice(s: seq<Entry>, n: nat)
    requires 1 <= n <= |s|
    ensures Swapped(Swapped(s, n), n) == s
  {
  }

  /** The padding keeps `val` as the low bytes and init-zero above them. */
  lemma PaddedShape(p: Prims, val: seq<DEPByte>)
    requires |val| <= 32
    ensures Padded(p, val)[32 - |val|..] == val
    ensures forall i :: 0 <= i < 32 - |val| ==> Padded(p, val)[i] == InitZero(p)
  {
  }

  class Stack {
    var data: seq<Entry>
    const p: Prims

    /** `StackNew`. */
    constructor (p: Prims)
      ensures data == [] && this.p == p
    {
      data := [];
      this.p := p;
    }

    /** `Copy`: a new stack with equal entries, sharing nothing with this one. */
    method Copy() returns (res: Stack)
      ensures fresh(res) && res.data == data && res.p == p
    {
      res := new Stack(p);
      var i := 0;
      while i < |data|
        invariant 0 <= i <= |data|
        invariant res.data == data[..i]
        modifies res
      {
        res.data := res.data + [data[i]];
        i := i + 1;
      }
    }

    method Push(val: Entry)
      modifies this
      ensures data == old(data) + [val]
    {
      data := data + [val];
    }

    /** `PushN`: panics on more than 32 bytes, otherwise pushes `val` left-padded. */
    method PushN(val: seq<DEPByte>) returns (ok: bool)
      modifies this
      ensures ok <==> |val| <= 32
      ensures ok ==> data == old(data) + [Padded(p, val)]
      ensures !ok ==> data == old(data)
    {
      if |val| > 32 {
        return false;
      }
      var extraBytes := 32 - |val|;
      var res: seq<DEPByte> := [];
      var i := 0;
      while i < extraBytes
        invariant 0 <= i <= extraBytes
        invariant res == InitBytes(p, i)
      {
        res := res + [InitZero(p)];
        i := i + 1;
      }
      res := res + val;
      data := data + [res];
      ok := true;
    }

    /** `Pop`: removes and returns the last pushed entry; on an empty stack the index panics. */
    method Pop() returns (r: Result<Entry>)
      modifies this
      ensures r.Ok? <==> |old(data)| > 0
      ensures r.Ok? ==> old(data) == data + [r.value]
      ensures r.Fail? ==> data == old(data)
    {
      if |data| == 0 {
        return Fail("index out of range");
      }
      r := Ok(data[|data| - 1]);
      data := data[..|data| - 1];
    }

    /** `Swap(n)`; a depth outside the stack panics on the index. */
    method Swap(n: int) returns (ok: bool)
      modifies this
      ensures ok <==> 1 <= n <= |old(data)|
      ensures ok ==> data == Swapped(old(data), n)
      ensures !ok ==> data == old(data)
    {
      if n < 1 || n > |data| {
        return false;
      }
      data := data[|data| - n := data[|data| - 1]][|data| - 1 := data[|data| - n]];
      ok := true;
    }

    /** `Dup(n)`: pushes a copy of the n-th entry from the top; a depth outside the stack panics. */
    method Dup(n: int) returns (ok: bool)
      modifies this
      ensures ok <==> 1 <= n <= |old(data)|
      ensures ok ==> data == old(data) + [old(data)[|old(data)| - n]]
      ensures !ok ==> data == old(data)
    {
      if n < 1 || n > |data| {
        return false;
      }
      Push(data[|data| - n]);
      ok := true;
    }

    method Size() returns (n: nat)
      ensures n == |data|
    {
      n := |data|;
    }
  }
}
