// The call frames of one transaction state (tracer/dep_tracer/stacked.go):
// each `StackedElement` is one execution context with its own formula stack
// and memory, and `Stacked` is the stack of them, innermost last.  An element
// owns its stack and memory (every copy is deep), so it is a value here whose
// `stack` and `memory` are the contents of `FormulaStack.Stack.data` and
// `FormulaMemory.Memory.data`.
module StackedFrames {
  import opened Common
  import opened DepBytes
  import opened FormulaStack

  datatype StackedElement = StackedElement(
    isCreate: bool, addr: Address, addrVersion: U64, codeAddr: Address,
    calldata: seq<DEPByte>, code: seq<DEPByte>, codeHash: Hash, initcodeHash: Hash,
    stack: seq<Entry>, memory: seq<DEPByte>)

  /** `StackedElementNew`: the context as given, with a fresh empty stack and memory. */
  function StackedElementNew(isCreate: bool, addr: Address, addrVersion: U64, codeAddr: Address,
                             calldata: seq<DEPByte>, code: seq<DEPByte>, codeHash: Hash, initcodeHash: Hash): (e: StackedElement)
    ensures e.stack == [] && e.memory == [] && |e.memory| % 32 == 0
    ensures e.calldata == calldata && e.code == code
    ensures (e.isCreate, e.addr, e.addrVersion, e.codeAddr, e.codeHash, e.initcodeHash)
         == (isCreate, addr, addrVersion, codeAddr, codeHash, initcodeHash)
  {
    StackedElement(isCreate, addr, addrVersion, codeAddr, calldata, code, codeHash, initcodeHash, [], [])
  }

  /** `StackedElement.Copy` as written: every field is copied but `initcodeHash`, which stays zero. */
  function ElementCopyAsWritten(e: StackedElement): StackedElement
  {
    StackedElement(e.isCreate, e.addr, e.addrVersion, e.codeAddr, e.calldata, e.code, e.codeHash, ZERO_HASH,
                   e.stack, e.memory)
  }

  /** As written, a copy keeps the element only when its init-code hash was already zero. */
  lemma ElementCopyAsWrittenLosesInitcodeHash(e: StackedElement)
    ensures ElementCopyAsWritten(e).initcodeHash == ZERO_HASH
    ensures ElementCopyAsWritten(e) == e <==> e.initcodeHash == ZERO_HASH
    ensures ElementCopyAsWritten(e) == e.(initcodeHash := ZERO_HASH)
  {
  }

  /** `StackedElement.Copy` with `initcodeHash` copied like the other fields: an equal element. */
  function ElementCopy(e: StackedElement): (r: StackedElement)
    ensures r == e
  {
    StackedElement(e.isCreate, e.addr, e.addrVersion, e.codeAddr, e.calldata, e.code, e.codeHash, e.initcodeHash,
                   e.stack, e.memory)
  }

  /** `Cur` on a list of elements: the last one, and a failure (Go panics) when there is none. */
  function Top(es: seq<StackedElement>): (r: Result<StackedElement>)
    ensures r.Ok? <==> |es| > 0
    ensures r.Ok? ==> r.value == es[|es| - 1]
  {
    if |es| < 1 then Fail("no elements in stacked") else Ok(es[|es| - 1])
  }

  /** `Cur` after `Push` is the pushed element, and popping it restores the list: elements are LIFO. */
  lemma PushCurPop(es: seq<StackedElement>, e: StackedElement)
    ensures Top(es + [e]) == Ok(e)
    ensures (es + [e])[..|es|] == es
  {
  }

  class Stacked {
    var elements: seq<StackedElement>

    /** `StackedNew`: one element for the outermost context. */
    constructor (isCreate: bool, addr: Address, addrVersion: U64, codeAddr: Address,
                 calldata: seq<DEPByte>, code: seq<DEPByte>, codeHash: Hash, initcodeHash: Hash)
      ensures elements == [StackedElementNew(isCreate, addr, addrVersion, codeAddr, calldata, code, codeHash, initcodeHash)]
    {
      elements := [StackedElementNew(isCreate, addr, addrVersion, codeAddr, calldata, code, codeHash, initcodeHash)];
    }

    /** `Copy`: a new list of the same length, each element copied. */
    method Copy() returns (res: Stacked)
      ensures fresh(res) && res.elements == elements
    {
      res := new Stacked(false, ZERO_ADDRESS, 0, ZERO_ADDRESS, [], [], ZERO_HASH, ZERO_HASH);
      var copied: seq<StackedElement> := [];
      for i := 0 to |elements|
        invariant copied == elements[..i]
      {
        copied := copied + [ElementCopy(elements[i])];
      }
      res.elements := copied;
    }

    method Push(isCreate: bool, addr: Address, addrVersion: U64, codeAddr: Address,
                calldata: seq<DEPByte>, code: seq<DEPByte>, codeHash: Hash, initcodeHash: Hash)
      modifies this
      ensures elements == old(elements) + [StackedElementNew(isCreate, addr, addrVersion, codeAddr, calldata, code, codeHash, initcodeHash)]
    {
      elements := elements + [StackedElementNew(isCreate, addr, addrVersion, codeAddr, calldata, code, codeHash, initcodeHash)];
    }

    method Cur() returns (r: Result<StackedElement>)
      ensures r == Top(elements)
    {
      if |elements| < 1 {
        return Fail("no elements in stacked");
      }
      r := Ok(elements[|elements| - 1]);
    }

    /** `Pop`: drops the last element; on an empty list the slice expression panics. */
    method Pop() returns (ok: bool)
      modifies this
      ensures ok <==> |old(elements)| > 0
      ensures ok ==> elements == old(elements)[..|old(elements)| - 1]
      ensures !ok ==> elements == old(elements)
    {
      if |elements| == 0 {
        return false;
      }
      elements := elements[..|elements| - 1];
      ok := true;
    }
  }
}
