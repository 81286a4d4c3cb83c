// The `Data*` values and their `Handle` methods (tracer/dep_tracer/global.go,
// with the value layouts of tracer/dep_tracer/json_marshal_common.go): what
// each recorded EVM step does to the formula stack and memory of the current
// frame, to the transaction state and to the formula database.
//
// A handle that panics in the source returns `ok == false` here; the state it
// leaves behind is then not described, since the tracer process stops.
module Handles {
  import opened Common
  import opened Opcodes
  import opened Formulas
  import opened DepBytes
  import opened FormulaStack
  import opened FormulaMemory
  import opened Logging
  import opened SimpleDb
  import opened StackedFrames
  import opened Overlays
  import opened Transactions
  import opened Precompiles
  import opened FormulaDeps
  import OverlayFrames

  /** One recorded EVM step; field names follow the `Data*` structs. */
  datatype Data =
    | DataStart(isCreate: bool, address: Address, input: seq<Byte>, block: int, timestamp: U64, origin: Address, txHash: Hash)
    | DataError(reverted: bool)
    | DataPush(pc: U64, size: U64)
    | DataDup(dupSize: int)
    | DataSwap(swapSize: int)
    | DataPop
    | DataMLoad(offset: U64)
    | DataMStore(offset: U64)
    | DataMStore8(offset: U64)
    | DataMCopy(toOffset: U64, fromOffset: U64, size: U64)
    | DataConstant(op: Byte, value: Word)
    | DataConstant20(op: Byte, value: Word)
    | DataSLoad(slot: Word, value: Word)
    | DataSStore(slot: Word, value: Word)
    | DataTLoad(slot: Word)
    | DataTStore(slot: Word)
    | DataOne(op: Byte, value: Word)
    | DataTwo(op: Byte, value: Word)
    | DataThree(op: Byte, value: Word)
    | DataByte(byteOffset: Word)
    | DataKeccak(result: Hash, offset: U64, size: U64)
    | DataCodeSize(codeSize: U64)
    | DataExtCodeSize(address: Address, extCodeSize: Word)
    | DataExtCodeHash(address: Address, hash: Hash)
    | DataCalldataSize(calldataSize: U64)
    | DataReturndataSize(returndataSize: U64)
    | DataCodeCopy(memoryOffset: U64, codeOffset: U64, length: U64)
    | DataExtCodeCopy(address: Address, memoryOffset: U64, codeOffset: U64, length: U64)
    | DataCalldataCopy(memoryOffset: U64, dataOffset: U64, size: U64)
    | DataReturndataCopy(memoryOffset: U64, dataOffset: U64, size: U64)
    | DataCalldataLoad(offset: U64)
    | DataLog(offset: U64, size: U64, topicsNum: int)
    | DataReturn(offset: U64, size: U64, returned: seq<Byte>)
    | DataStop
    | DataSelfdestruct
    | DataSelfdestruct6780
    | DataRevert(offset: U64, size: U64)
    | DataEmpty(n: int)
    | DataBalance(balance: Word)
    | DataSelfBalance(balance: Word)
    | DataBlockHash(hash: Hash)
    | DataBlobHash(hash: Hash)
    | DataCreateStart(address: Address, offset: U64, size: U64, initcode: seq<Byte>)
    | DataCreateEnd(address: Address)
    | DataCreate2Start(address: Address, offset: U64, size: U64, initcode: seq<Byte>)
    | DataCreate2End(address: Address)
    | DataCallStart(n: int, address: Address, codeAddress: Address, inOffset: U64, inSize: U64)
    | DataCallEnd(success: bool, returnOffset: U64, returnSize: U64)
    | DataPrecompile(pd: PrecompileData)

  // ---- stack effects ----

  /** A Go loop `for i := 0; i < n; i++` runs `n` times, and not at all for a negative `n`. */
  function Times(n: int): nat
  {
    if n < 0 then 0 else n
  }

  /**
   * The entries a step pops from the formula stack of the frame it starts
   * in; `DataDup` and `DataSwap` read below the top without popping, and
   * the steps that leave the frame (return, revert, call, create) count the
   * pops made before leaving.
   */
  function Pops(d: Data): nat
  {
    match d
    case DataPop | DataMLoad(_) | DataSLoad(_, _) | DataTLoad(_) | DataOne(_, _) | DataCalldataLoad(_)
       | DataExtCodeSize(_, _) | DataExtCodeHash(_, _) | DataBalance(_) | DataBlockHash(_) | DataBlobHash(_)
       | DataSelfdestruct | DataSelfdestruct6780 => 1
    case DataMStore(_) | DataMStore8(_) | DataSStore(_, _) | DataTStore(_) | DataTwo(_, _) | DataByte(_)
       | DataKeccak(_, _, _) | DataReturn(_, _, _) | DataRevert(_, _) => 2
    case DataMCopy(_, _, _) | DataThree(_, _) | DataCodeCopy(_, _, _) | DataCalldataCopy(_, _, _)
       | DataReturndataCopy(_, _, _) | DataCreateStart(_, _, _, _) => 3
    case DataExtCodeCopy(_, _, _, _) | DataCreate2Start(_, _, _, _) => 4
    case DataLog(_, _, k) => 2 + Times(k)
    case DataEmpty(n) => Times(n)
    case DataCallStart(n, _, _, _, _) => Times(n)
    case _ => 0
  }

  /** The entries a step that stays in its frame pushes onto the formula stack. */
  function Pushes(d: Data): nat
  {
    match d
    case DataPush(_, _) | DataDup(_) | DataMLoad(_) | DataConstant(_, _) | DataConstant20(_, _)
       | DataSLoad(_, _) | DataTLoad(_) | DataOne(_, _) | DataTwo(_, _) | DataThree(_, _) | DataByte(_)
       | DataKeccak(_, _, _) | DataCodeSize(_) | DataExtCodeSize(_, _) | DataExtCodeHash(_, _)
       | DataCalldataSize(_) | DataReturndataSize(_) | DataCalldataLoad(_) | DataBalance(_)
       | DataSelfBalance(_) | DataBlockHash(_) | DataBlobHash(_) | DataCreateEnd(_) | DataCreate2End(_)
       | DataCallEnd(_, _, _) => 1
    case _ => 0
  }

  /** The steps whose only effect is on the current frame's stack and memory. */
  predicate IsFrameData(d: Data)
  {
    d.DataPush? || d.DataDup? || d.DataSwap? || d.DataPop? || d.DataMLoad? || d.DataMStore? || d.DataMStore8?
    || d.DataMCopy? || d.DataByte? || d.DataCodeCopy? || d.DataCalldataCopy? || d.DataReturndataCopy?
    || d.DataCalldataLoad? || d.DataEmpty?
  }

  // ---- the frame as the handlers see it ----

  /**
   * `n` successive `Stack().Pop()` calls: the frame without its top `n`
   * entries, and the entries in the order they came off.  Popping more
   * entries than there are panics on the index.
   */
  function Popped(f: StackedElement, n: nat): (r: Result<(StackedElement, seq<Entry>)>)
    ensures r.Ok? <==> n <= |f.stack|
    ensures r.Ok? ==> r.value.0 == f.(stack := f.stack[..|f.stack| - n]) && |r.value.1| == n
    ensures r.Ok? ==> forall i :: 0 <= i < n ==> r.value.1[i] == f.stack[|f.stack| - 1 - i]
    decreases n
  {
    if n == 0 then Ok((f, []))
    else if |f.stack| == 0 then Fail("index out of range")
    else
      match Popped(f.(stack := f.stack[..|f.stack| - 1]), n - 1)
      case Fail(m) => Fail(m)
      case Ok(rest) => Ok((rest.0, [f.stack[|f.stack| - 1]] + rest.1))
  }

  /** `Stack().PushN(val)`: more than 32 bytes panic. */
  function PushedN(p: Prims, f: StackedElement, val: seq<DEPByte>): (r: Result<StackedElement>)
    ensures r.Ok? <==> |val| <= 32
  {
    if |val| > 32 then Fail("can't push more than 32 bytes")
    else Ok(f.(stack := f.stack + [Padded(p, val)]))
  }

  /** The one byte `DataByte` keeps: an offset of 32 or more, overflowing or not, selects none. */
  function ByteIndex(offset: Word): (r: nat)
    ensures r <= 32 && (offset < 32 ==> r == offset) && (offset >= 32 ==> r == 32)
  {
    if offset >= 32 then 32 else offset
  }

  /**
   * The three copy handles: pop three entries, then write `len` bytes of
   * `src` from `from` on at `memoryOffset`, init-zero past the end of `src`.
   */
  function CopiedInto(p: Prims, f: StackedElement, memoryOffset: nat, src: seq<DEPByte>, from: nat, len: nat): (r: Result<StackedElement>)
    ensures r.Ok? <==> 3 <= |f.stack|
    ensures r.Ok? ==> r.value == f.(stack := f.stack[..|f.stack| - 3],
                                    memory := AfterSetN(p, f.memory, memoryOffset, OverflowSlice(p, src, from, len)))
  {
    match Popped(f, 3)
    case Fail(m) => Fail(m)
    case Ok(q) => Ok(q.0.(memory := AfterSetN(p, q.0.memory, memoryOffset, OverflowSlice(p, src, from, len))))
  }

  /**
   * The handles that touch only the current frame: `rd` is the transaction's
   * return data, which `DataReturndataCopy` reads.
   */
  function FrameStep(p: Prims, d: Data, f: StackedElement, rd: seq<DEPByte>): (r: Result<StackedElement>)
    requires IsFrameData(d)
  {
    match d
    case DataPush(pc, size) =>
      if size == 0 then PushedN(p, f, [])
      else PushedN(p, f, OverflowSlice(p, f.code, Add64(pc, 1), size))
    case DataDup(n) =>
      if 1 <= n <= |f.stack| then Ok(f.(stack := f.stack + [f.stack[|f.stack| - n]])) else Fail("index out of range")
    case DataSwap(n) =>
      if 1 <= n <= |f.stack| then Ok(f.(stack := Swapped(f.stack, n))) else Fail("index out of range")
    case DataPop =>
      (match Popped(f, 1)
      case Fail(m) => Fail(m)
      case Ok(q) => Ok(q.0))
    case DataMLoad(offset) =>
      (match Popped(f, 1)
      case Fail(m) => Fail(m)
      case Ok(q) =>
        var ld := LoadResult(p, q.0.memory, offset, 32);
        PushedN(p, q.0.(memory := ld.0), ld.1))
    case DataMStore(offset) =>
      (match Popped(f, 2)
      case Fail(m) => Fail(m)
      case Ok(q) => Ok(q.0.(memory := AfterSetN(p, q.0.memory, offset, q.1[1]))))
    case DataMStore8(offset) =>
      (match Popped(f, 2)
      case Fail(m) => Fail(m)
      case Ok(q) =>
        var e := Extended(p, q.0.memory, offset + 1);
        ExtendedShape(p, q.0.memory, offset + 1);
        Ok(q.0.(memory := e[offset := q.1[1][31]])))
    case DataMCopy(toOffset, fromOffset, size) =>
      (match Popped(f, 3)
      case Fail(m) => Fail(m)
      case Ok(q) =>
        var ld := LoadResult(p, q.0.memory, fromOffset, size);
        Ok(q.0.(memory := AfterSetN(p, ld.0, toOffset, ld.1))))
    case DataByte(offset) =>
      (match Popped(f, 2)
      case Fail(m) => Fail(m)
      case Ok(q) => PushedN(p, q.0, OverflowSlice(p, q.1[1], ByteIndex(offset), 1)))
    case DataCodeCopy(memoryOffset, codeOffset, length) =>
      CopiedInto(p, f, memoryOffset, f.code, codeOffset, length)
    case DataCalldataCopy(memoryOffset, dataOffset, size) =>
      CopiedInto(p, f, memoryOffset, f.calldata, dataOffset, size)
    case DataReturndataCopy(memoryOffset, dataOffset, size) =>
      CopiedInto(p, f, memoryOffset, rd, dataOffset, size)
    case DataCalldataLoad(offset) =>
      (match Popped(f, 1)
      case Fail(m) => Fail(m)
      case Ok(q) => PushedN(p, q.0, OverflowSlice(p, f.calldata, offset, 32)))
    case DataEmpty(n) =>
      (match Popped(f, Times(n))
      case Fail(m) => Fail(m)
      case Ok(q) => Ok(q.0))
  }

  // ---- what the frame handles promise ----

  /** The depth a frame handle needs: the entries it pops, and for `DataDup`/`DataSwap` the entry it reads. */
  function Needed(d: Data): int
  {
    match d
    case DataDup(n) => n
    case DataSwap(n) => n
    case _ => Pops(d)
  }

  /**
   * A frame handle panics exactly when the stack is too shallow for it, when
   * `DataDup`/`DataSwap` name a depth below one, or when `DataPush` asks for
   * more than 32 bytes; otherwise the stack loses `Pops(d)` entries and gains
   * `Pushes(d)`, every entry below the ones it touches staying put.
   */
  ghost predicate StackEffect(p: Prims, d: Data, f: StackedElement, rd: seq<DEPByte>)
    requires IsFrameData(d)
  {
    var r := FrameStep(p, d, f, rd);
    && (r.Ok? <==> (Needed(d) <= |f.stack|
                    && (d.DataDup? || d.DataSwap? ==> 1 <= Needed(d))
                    && (d.DataPush? ==> d.size <= 32)))
    && (r.Ok? ==> |r.value.stack| + Pops(d) == |f.stack| + Pushes(d))
    && (r.Ok? && !d.DataSwap? ==> r.value.stack[..|f.stack| - Pops(d)] == f.stack[..|f.stack| - Pops(d)])
  }

  lemma FrameStepStack(p: Prims, d: Data, f: StackedElement, rd: seq<DEPByte>)
    requires IsFrameData(d)
    ensures StackEffect(p, d, f, rd)
  {
    if d.DataPush? || d.DataDup? || d.DataSwap? {
      StackEffectReorder(p, d, f, rd);
    } else if d.DataPop? || d.DataEmpty? {
      StackEffectDrop(p, d, f, rd);
    } else if d.DataMLoad? || d.DataCalldataLoad? || d.DataByte? {
      StackEffectLoad(p, d, f, rd);
    } else if d.DataMStore? || d.DataMStore8? || d.DataMCopy? {
      StackEffectStore(p, d, f, rd);
    } else {
      StackEffectCopy(p, d, f, rd);
    }
  }

  lemma StackEffectReorder(p: Prims, d: Data, f: StackedElement, rd: seq<DEPByte>)
    requires d.DataPush? || d.DataDup? || d.DataSwap?
    ensures StackEffect(p, d, f, rd)
  {
  }

  lemma StackEffectDrop(p: Prims, d: Data, f: StackedElement, rd: seq<DEPByte>)
    requires d.DataPop? || d.DataEmpty?
    ensures StackEffect(p, d, f, rd)
  {
  }

  lemma StackEffectLoad(p: Prims, d: Data, f: StackedElement, rd: seq<DEPByte>)
    requires d.DataMLoad? || d.DataCalldataLoad? || d.DataByte?
    ensures StackEffect(p, d, f, rd)
  {
  }

  lemma StackEffectStore(p: Prims, d: Data, f: StackedElement, rd: seq<DEPByte>)
    requires d.DataMStore? || d.DataMStore8? || d.DataMCopy?
    ensures StackEffect(p, d, f, rd)
  {
  }

  lemma StackEffectCopy(p: Prims, d: Data, f: StackedElement, rd: seq<DEPByte>)
    requires d.DataCodeCopy? || d.DataCalldataCopy? || d.DataReturndataCopy?
    ensures StackEffect(p, d, f, rd)
  {
    var src := if d.DataCodeCopy? then f.code else if d.DataCalldataCopy? then f.calldata else rd;
    var from := if d.DataCodeCopy? then d.codeOffset else d.dataOffset;
    var len := if d.DataCodeCopy? then d.length else d.size;
    assert FrameStep(p, d, f, rd) == CopiedInto(p, f, d.memoryOffset, src, from, len);
  }

  /** Only the stack and the memory of a frame change; its code, calldata and context stay. */
  lemma FrameStepKeepsContext(p: Prims, d: Data, f: StackedElement, rd: seq<DEPByte>)
    requires IsFrameData(d) && FrameStep(p, d, f, rd).Ok?
    ensures FrameStep(p, d, f, rd).value == f.(stack := FrameStep(p, d, f, rd).value.stack,
                                               memory := FrameStep(p, d, f, rd).value.memory)
  {
  }

  /**
   * `DataPush` with size 0 (PUSH0) pushes 32 init-zero bytes; with a size
   * up to 32 it pushes the `size` immediate bytes after `pc`, left-padded,
   * with init-zero bytes where the code ends before them.
   */
  lemma PushPushesCode(p: Prims, pc: U64, size: U64, f: StackedElement, rd: seq<DEPByte>)
    requires size <= 32
    ensures var r := FrameStep(p, DataPush(pc, size), f, rd);
      r.Ok? && |r.value.stack| == |f.stack| + 1 && r.value.stack[..|f.stack|] == f.stack
    ensures size == 0 ==> FrameStep(p, DataPush(pc, size), f, rd).value.stack[|f.stack|] == InitBytes(p, 32)
    ensures var top := FrameStep(p, DataPush(pc, size), f, rd).value.stack[|f.stack|];
      top[..32 - size] == InitBytes(p, 32 - size) && top[32 - size..] == OverflowSlice(p, f.code, Add64(pc, 1), size)
  {
    var r := FrameStep(p, DataPush(pc, size), f, rd);
    var val := if size == 0 then [] else OverflowSlice(p, f.code, Add64(pc, 1), size);
    assert r.value.stack[|f.stack|] == Padded(p, val);
    PaddedShape(p, val);
    assert val == OverflowSlice(p, f.code, Add64(pc, 1), size);
    if size == 0 {
      assert Padded(p, val) == InitBytes(p, 32);
    }
  }

  /**
   * `DataByte` pushes one byte of the value under the offset, right-aligned:
   * byte `offset` of it for an offset below 32, an init-zero byte for any
   * larger offset, including one that does not fit in 64 bits.
   */
  lemma ByteSelects(p: Prims, offset: Word, f: StackedElement, rd: seq<DEPByte>)
    requires |f.stack| >= 2
    ensures var r := FrameStep(p, DataByte(offset), f, rd);
      r.Ok? && r.value.stack[..|f.stack| - 2] == f.stack[..|f.stack| - 2] && |r.value.stack| == |f.stack| - 1
    ensures var top := FrameStep(p, DataByte(offset), f, rd).value.stack[|f.stack| - 2];
      top[..31] == InitBytes(p, 31)
      && top[31] == (if offset < 32 then f.stack[|f.stack| - 2][offset] else InitZero(p))
  {
    var q := Popped(f, 2).value;
    var val := OverflowSlice(p, q.1[1], ByteIndex(offset), 1);
    PaddedShape(p, val);
    assert Padded(p, val)[31] == val[0];
  }

  /** `DataDup(n)` pushes a copy of the n-th entry from the top and `DataSwap(n)` done twice changes nothing. */
  lemma DupSwapEffects(p: Prims, n: int, f: StackedElement, rd: seq<DEPByte>)
    requires 1 <= n <= |f.stack|
    ensures FrameStep(p, DataDup(n), f, rd) == Ok(f.(stack := f.stack + [f.stack[|f.stack| - n]]))
    ensures var g := FrameStep(p, DataSwap(n), f, rd).value; FrameStep(p, DataSwap(n), g, rd) == Ok(f)
  {
    var g := FrameStep(p, DataSwap(n), f, rd).value;
    SwappedTwice(f.stack, n);
    assert g.(stack := Swapped(g.stack, n)) == f;
  }

  /**
   * What `DataMStore` stores at an offset, a later `DataMLoad` at that offset
   * pushes back: the 32 bytes of the entry under the offset entry.
   */
  lemma MStoreThenMLoad(p: Prims, offset: U64, f: StackedElement, y: Entry, rd: seq<DEPByte>)
    requires |f.stack| >= 2
    ensures var g := FrameStep(p, DataMStore(offset), f, rd);
      g.Ok? && var h := FrameStep(p, DataMLoad(offset), g.value.(stack := g.value.stack + [y]), rd);
      h.Ok? && h.value.stack == f.stack[..|f.stack| - 2] + [f.stack[|f.stack| - 2]]
  {
    var v := f.stack[|f.stack| - 2];
    MStoreStep(p, offset, f, rd);
    var g := FrameStep(p, DataMStore(offset), f, rd).value;
    var g1 := g.(stack := g.stack + [y]);
    MLoadStep(p, offset, g1, rd);
    LoadAfterSetN(p, f.memory, offset, v);
    PaddedShape(p, v);
    assert Padded(p, v) == v;
    assert g1.stack[..|g1.stack| - 1] == f.stack[..|f.stack| - 2];
  }

  /** `DataMStore` pops the offset and the value and writes the value at the offset. */
  lemma MStoreStep(p: Prims, offset: U64, f: StackedElement, rd: seq<DEPByte>)
    requires |f.stack| >= 2
    ensures FrameStep(p, DataMStore(offset), f, rd)
      == Ok(f.(stack := f.stack[..|f.stack| - 2], memory := AfterSetN(p, f.memory, offset, f.stack[|f.stack| - 2])))
  {
    var q := Popped(f, 2).value;
    assert q.1[1] == f.stack[|f.stack| - 2];
  }

  /** `DataMLoad` pops the offset and pushes the 32 bytes it reads there. */
  lemma MLoadStep(p: Prims, offset: U64, f: StackedElement, rd: seq<DEPByte>)
    requires |f.stack| >= 1
    ensures var ld := LoadResult(p, f.memory, offset, 32);
      FrameStep(p, DataMLoad(offset), f, rd) == PushedN(p, f.(stack := f.stack[..|f.stack| - 1], memory := ld.0), ld.1)
  {
    var q := Popped(f, 1).value;
    assert q.0 == f.(stack := f.stack[..|f.stack| - 1]);
  }

  /**
   * The copy handles write the source bytes from the offset on, with
   * init-zero bytes past the source's end, where a load of that range reads
   * them back.
   */
  lemma CopyWritesSlice(p: Prims, d: Data, f: StackedElement, rd: seq<DEPByte>)
    requires d.DataCodeCopy? || d.DataCalldataCopy? || d.DataReturndataCopy?
    requires |f.stack| >= 3
    ensures var src := if d.DataCodeCopy? then f.code else if d.DataCalldataCopy? then f.calldata else rd;
      var from := if d.DataCodeCopy? then d.codeOffset else d.dataOffset;
      var len := if d.DataCodeCopy? then d.length else d.size;
      var r := FrameStep(p, d, f, rd);
      r.Ok? && LoadResult(p, r.value.memory, d.memoryOffset, len).1 == OverflowSlice(p, src, from, len)
  {
    var src := if d.DataCodeCopy? then f.code else if d.DataCalldataCopy? then f.calldata else rd;
    var from := if d.DataCodeCopy? then d.codeOffset else d.dataOffset;
    var len := if d.DataCodeCopy? then d.length else d.size;
    var val := OverflowSlice(p, src, from, len);
    assert FrameStep(p, d, f, rd).value.memory == AfterSetN(p, f.memory, d.memoryOffset, val);
    LoadAfterSetN(p, f.memory, d.memoryOffset, val);
  }

  // ---- the handles ----

  /** The handles of the frame steps: the current frame replaced by `FrameStep` of it. */
  method HandleFrame(state: TransactionDB, d: Data) returns (ok: bool)
    requires IsFrameData(d)
    modifies state`states
    ensures var f := CurFrame(old(state.Value()));
      ok <==> f.Ok? && FrameStep(state.db.p, d, f.value, old(state.returndata)).Ok?
    ensures ok ==> (state.Value() ==
      UpdateFrameTx(old(state.Value()), FrameStep(state.db.p, d, CurFrame(old(state.Value())).value, old(state.returndata)).value).value)
  {
    var cur := state.Cur();
    if cur.Fail? {
      return false;
    }
    var next := FrameStep(state.db.p, d, cur.value, state.returndata);
    if next.Fail? {
      return false;
    }
    ok := state.UpdateFrame(next.value);
  }

  // ---- the handles that go through the formula database ----
  //
  // A handle pops, reads the database and pushes; the database calls never
  // look at the formula stack or memory, so here the frame is replaced once,
  // at the end, by what the pops, loads and pushes together make of it.

  /** `FormulaDEPBytes` then `PushN`, on a frame that first lost its top `k` entries. */
  function WithFormula(p: Prims, f: StackedElement, k: nat, g: Formula): (r: StackedElement)
    requires k <= |f.stack| && |g.result| <= 32
    ensures |r.stack| == |f.stack| - k + 1 && r.stack[..|f.stack| - k] == f.stack[..|f.stack| - k]
    ensures r.stack[|f.stack| - k][32 - |g.result|..] == FormulaBytes(g)
    ensures r == f.(stack := r.stack)
  {
    PaddedShape(p, FormulaBytes(g));
    f.(stack := f.stack[..|f.stack| - k] + [Padded(p, FormulaBytes(g))])
  }

  /** A frame less its top `k` entries. */
  function Dropped(f: StackedElement, k: nat): (r: StackedElement)
    requires k <= |f.stack|
    ensures r == Popped(f, k).value.0
  {
    f.(stack := f.stack[..|f.stack| - k])
  }

  /** Every input has a dependency formula under the cache. */
  ghost predicate DepsResolve(p: Prims, cache: Cache, inputs: seq<seq<DEPByte>>)
  {
    forall i :: 0 <= i < |inputs| ==> DepOf(p, cache, inputs[i]).Ok?
  }

  /** The dependency formulas of the inputs, in order. */
  ghost function DepFormulas(p: Prims, cache: Cache, inputs: seq<seq<DEPByte>>): (fs: seq<Formula>)
    requires DepsResolve(p, cache, inputs)
    ensures |fs| == |inputs| && forall i :: 0 <= i < |inputs| ==> Ok(fs[i]) == DepOf(p, cache, inputs[i])
  {
    seq(|inputs|, i requires 0 <= i < |inputs| => DepOf(p, cache, inputs[i]).value)
  }

  /** The operand hashes a handle takes from its inputs: in input order, or back to front. */
  ghost function DepOperands(p: Prims, cache: Cache, inputs: seq<seq<DEPByte>>, reversed: bool): (hs: seq<Hash>)
    requires DepsResolve(p, cache, inputs)
    ensures |hs| == |inputs|
  {
    var hs := HashesOf(DepFormulas(p, cache, inputs));
    if reversed then Reversed(hs) else hs
  }

  /**
   * What a formula handle leaves: the frame `f`, less its top `k` entries,
   * plus the bytes of the formula `op` with result `result` over the
   * operands `known` followed by the hashes of the dependency formulas of
   * `inputs` under the final cache, written into the transaction `t`.
   */
  ghost predicate PushedFormula(p: Prims, cache: Cache, f: StackedElement, k: nat, t: Tx, t1: Tx,
                                op: Byte, result: seq<Byte>, known: seq<Hash>, inputs: seq<seq<DEPByte>>, reversed: bool)
  {
    && k <= |f.stack| && |result| <= 32 && CurFrame(t).Ok? && DepsResolve(p, cache, inputs)
    && t1 == UpdateFrameTx(t, WithFormula(p, f, k, FormulaNew(p, op, result, known + DepOperands(p, cache, inputs, reversed)))).value
  }

  /** One `FormulaDepWithShorts` call per input, in order: each yields the dependency formula of its input. */
  method Deps(db: SimpleDB, inputs: seq<seq<DEPByte>>) returns (ok: bool, fs: seq<Formula>)
    requires db.Valid()
    modifies db`formulasWithShorts, db`formulas, db.shorts, db.logger`written
    ensures db.Valid() && Extends(old(db.formulasWithShorts), db.formulasWithShorts)
    ensures ok ==> DepsResolve(db.p, db.formulasWithShorts, inputs) && fs == DepFormulas(db.p, db.formulasWithShorts, inputs)
  {
    fs := [];
    for i := 0 to |inputs|
      invariant db.Valid() && Extends(old(db.formulasWithShorts), db.formulasWithShorts)
      invariant |fs| == i && forall j :: 0 <= j < i ==> DepOf(db.p, db.formulasWithShorts, inputs[j]) == Ok(fs[j])
    {
      ghost var c0 := db.formulasWithShorts;
      var g := db.FormulaDepWithShorts(inputs[i]);
      forall j | 0 <= j < i
        ensures DepOf(db.p, db.formulasWithShorts, inputs[j]) == Ok(fs[j])
      {
        DepOfExtends(db.p, c0, db.formulasWithShorts, inputs[j]);
      }
      if g.Fail? {
        return false, fs;
      }
      fs := fs + [g.value];
    }
    ok := true;
  }

  /** A list of hashes back to front. */
  function Reversed(hs: seq<Hash>): (r: seq<Hash>)
    ensures |r| == |hs| && forall i :: 0 <= i < |hs| ==> r[i] == hs[|hs| - 1 - i]
  {
    seq(|hs|, i requires 0 <= i < |hs| => hs[|hs| - 1 - i])
  }

  /** The hashes of the `CONSTANT` formulas over each of `consts`. */
  function ConstantHashes(p: Prims, consts: seq<seq<Byte>>): (hs: seq<Hash>)
    ensures |hs| == |consts| && forall i :: 0 <= i < |consts| ==> hs[i] == ConstantNew(p, OP_CONSTANT, consts[i]).hash
  {
    seq(|consts|, i requires 0 <= i < |consts| => ConstantNew(p, OP_CONSTANT, consts[i]).hash)
  }

  /** One `ConstantNewWithShorts(OPConstant, c)` per constant, in order. */
  method Constants(db: SimpleDB, consts: seq<seq<Byte>>) returns (ok: bool, hs: seq<Hash>)
    requires db.Valid()
    modifies db`formulasWithShorts, db`formulas, db.shorts, db.logger`written
    ensures db.Valid() && (ok ==> hs == ConstantHashes(db.p, consts))
  {
    hs := [];
    for i := 0 to |consts|
      invariant db.Valid() && hs == ConstantHashes(db.p, consts[..i])
    {
      var c := NewConstant(db, OP_CONSTANT, consts[i]);
      if c.Fail? {
        return false, hs;
      }
      hs := hs + [c.value.hash];
    }
    assert consts[..|consts|] == consts;
    ok := true;
  }

  /**
   * `FormulaNewWithShorts(op, result, known + deps)` where `known` are the
   * hashes of one constant per `consts`, made first, and `deps` the hashes
   * of one `FormulaDepWithShorts` per input, taken in order, and listed
   * back to front when `reversed`.
   */
  method FormulaOver(db: SimpleDB, op: Byte, result: seq<Byte>, consts: seq<seq<Byte>>, inputs: seq<seq<DEPByte>>, reversed: bool)
    returns (r: Result<Formula>, hs: seq<Hash>)
    requires db.Valid()
    modifies db`formulasWithShorts, db`formulas, db.shorts, db.logger`written
    ensures db.Valid()
    ensures r.Ok? ==> DepsResolve(db.p, db.formulasWithShorts, inputs) && hs == DepOperands(db.p, db.formulasWithShorts, inputs, reversed)
    ensures r.Ok? ==> r.value == FormulaNew(db.p, op, result, ConstantHashes(db.p, consts) + hs)
  {
    var cok, known := Constants(db, consts);
    var ok, fs := Deps(db, inputs);
    hs := if reversed then Reversed(HashesOf(fs)) else HashesOf(fs);
    if !cok || !ok {
      return Fail("dependency failed"), hs;
    }
    ghost var c0 := db.formulasWithShorts;
    r := NewFormula(db, op, result, known + hs);
    forall i | 0 <= i < |inputs|
      ensures DepOf(db.p, db.formulasWithShorts, inputs[i]) == DepOf(db.p, c0, inputs[i])
    {
      DepOfExtends(db.p, c0, db.formulasWithShorts, inputs[i]);
    }
  }

  /**
   * The tail every formula handle shares: build the formula over the
   * constants `consts` and the dependencies of `inputs`, then push it onto `f` less its top
   * `k` entries.
   */
  method PushFormulaOver(state: TransactionDB, f: StackedElement, k: nat, op: Byte, result: seq<Byte>,
                         consts: seq<seq<Byte>>, inputs: seq<seq<DEPByte>>, reversed: bool) returns (ok: bool)
    requires state.db.Valid() && k <= |f.stack|
    modifies state`states, state.db`formulasWithShorts, state.db`formulas, state.db.shorts, state.db.logger`written
    ensures state.db.Valid()
    ensures ok ==> PushedFormula(state.db.p, state.db.formulasWithShorts, f, k, old(state.Value()), state.Value(),
                                 op, result, ConstantHashes(state.db.p, consts), inputs, reversed)
  {
    var g, hs := FormulaOver(state.db, op, result, consts, inputs, reversed);
    if g.Fail? {
      return false;
    }
    ok := PushFormulaOnto(state, f, k, g.value);
  }

  /** `FormulaNewWithShorts`, seen only through the formula it builds. */
  method NewFormula(db: SimpleDB, op: Byte, result: seq<Byte>, operands: seq<Hash>) returns (r: Result<Formula>)
    requires db.Valid()
    modifies db`formulasWithShorts, db`formulas, db.shorts, db.logger`written
    ensures db.Valid() && Extends(old(db.formulasWithShorts), db.formulasWithShorts)
    ensures r.Ok? ==> r.value == FormulaNew(db.p, op, result, operands)
  {
    r := db.FormulaNewWithShorts(op, result, operands);
  }

  /** `ConstantNewWithShorts`, seen only through the formula it builds. */
  method NewConstant(db: SimpleDB, op: Byte, result: seq<Byte>) returns (r: Result<Formula>)
    requires db.Valid()
    modifies db`formulasWithShorts, db`formulas, db.shorts, db.logger`written
    ensures db.Valid() && Extends(old(db.formulasWithShorts), db.formulasWithShorts)
    ensures r.Ok? ==> r.value == ConstantNew(db.p, op, result)
  {
    r := db.ConstantNewWithShorts(op, result);
  }

  /** Writes a formula handle's frame: `f` less `k` entries with `g` pushed; a result past 32 bytes panics. */
  method PushFormulaOnto(state: TransactionDB, f: StackedElement, k: nat, g: Formula) returns (ok: bool)
    requires k <= |f.stack|
    modifies state`states
    ensures ok <==> CurFrame(old(state.Value())).Ok? && |g.result| <= 32
    ensures ok ==> state.Value() == UpdateFrameTx(old(state.Value()), WithFormula(state.db.p, f, k, g)).value
  {
    if |g.result| > 32 {
      return false;
    }
    ok := state.UpdateFrame(WithFormula(state.db.p, f, k, g));
  }

  /** The logger context `c0` pointed at the account, version, code account and hashes of the frame `f`. */
  predicate ContextOf(c1: LoggerContext, c0: LoggerContext, f: StackedElement)
  {
    c1 == c0.(address := f.addr, addressVersion := f.addrVersion, codeAddress := f.codeAddr,
              codeHash := f.codeHash, initcodeHash := f.initcodeHash)
  }

  /** `db.logger.SetContractAddress` with the current frame's account, version, code account and hashes. */
  method SetContract(state: TransactionDB) returns (ok: bool)
    modifies state.db.logger`context
    ensures ok <==> CurFrame(state.Value()).Ok?
    ensures ok ==> ContextOf(state.db.logger.context, old(state.db.logger.context), CurFrame(state.Value()).value)
  {
    var cur := state.Cur();
    if cur.Fail? {
      return false;
    }
    var f := cur.value;
    state.db.logger.SetContractAddress(f.addr, f.addrVersion, f.codeAddr, f.codeHash, f.initcodeHash);
    ok := true;
  }

  /** The last 20 bytes of an entry: the address an address operand carries. */
  function AddressPart(e: Entry): (r: seq<DEPByte>)
    ensures |r| == 20 && r == e[12..]
  {
    e[12..]
  }

  /**
   * `DataOne`, `DataTwo` and `DataThree`: pop `n` entries, depend on each in
   * the order popped, and push the formula `op` over them whose result is
   * the recorded value.
   */
  method HandleArith(state: TransactionDB, n: nat, op: Byte, value: Word) returns (ok: bool)
    requires state.db.Valid()
    modifies state`states, state.db`formulasWithShorts, state.db`formulas, state.db.shorts, state.db.logger`written
    ensures state.db.Valid()
    ensures ok ==> CurFrame(old(state.Value())).Ok? && n <= |CurFrame(old(state.Value())).value.stack|
    ensures ok ==> PushedFormula(state.db.p, state.db.formulasWithShorts, CurFrame(old(state.Value())).value, n,
                                 old(state.Value()), state.Value(), op, Bytes32(value), [],
                                 Popped(CurFrame(old(state.Value())).value, n).value.1, false)
    ensures CurFrame(old(state.Value())).Ok? && n > |CurFrame(old(state.Value())).value.stack| ==> !ok
  {
    var cur := state.Cur();
    if cur.Fail? || n > |cur.value.stack| {
      return false;
    }
    ok := PushFormulaOver(state, cur.value, n, op, Bytes32(value), [], Popped(cur.value, n).value.1, false);
  }

  /**
   * `DataConstant` (the value's 32 bytes), `DataConstant20` (its low 20
   * bytes), `DataCreateEnd` and `DataCreate2End` (the new address): push
   * the constant formula `op` with that result.
   */
  method HandleConstant(state: TransactionDB, op: Byte, bin: seq<Byte>) returns (ok: bool)
    requires state.db.Valid()
    modifies state`states, state.db`formulasWithShorts, state.db`formulas, state.db.shorts, state.db.logger`written
    ensures state.db.Valid()
    ensures ok ==> CurFrame(old(state.Value())).Ok? && |bin| <= 32
    ensures ok ==> (state.Value() ==
      UpdateFrameTx(old(state.Value()), WithFormula(state.db.p, CurFrame(old(state.Value())).value, 0, ConstantNew(state.db.p, op, bin))).value)
  {
    var cur := state.Cur();
    if cur.Fail? {
      return false;
    }
    var g := NewConstant(state.db, op, bin);
    if g.Fail? {
      return false;
    }
    ok := PushFormulaOnto(state, cur.value, 0, g.value);
  }

  /**
   * `DataSLoad`: pop the slot, read the slot's bytes through the overlay,
   * and push the `SLOAD` formula over (value, slot) whose result is the
   * recorded value.
   */
  method HandleSLoad(state: TransactionDB, slot: Word, value: Word) returns (ok: bool)
    requires state.db.Valid()
    modifies state`states, state.db`formulasWithShorts, state.db`formulas, state.db.shorts, state.db.logger`written
    ensures state.db.Valid()
    ensures ok ==> CurFrame(old(state.Value())).Ok? && GetSlotTx(old(state.Value()), state.db.p, state.BaseOf(), slot).Ok?
    ensures ok ==> 1 <= |CurFrame(old(state.Value())).value.stack|
    ensures ok ==> var cur := CurFrame(old(state.Value())).value;
      var read := GetSlotTx(old(state.Value()), state.db.p, state.BaseOf(), slot).value;
      PushedFormula(state.db.p, state.db.formulasWithShorts, cur, 1, read.t, state.Value(),
                    OP_SLOAD, Bytes32(value), [], [cur.stack[|cur.stack| - 1], read.value], true)
    ensures CurFrame(old(state.Value())).Ok? && |CurFrame(old(state.Value())).value.stack| == 0 ==> !ok
  {
    ok := false;
    var cur := state.Cur();
    if cur.Ok? && |cur.value.stack| >= 1 {
      var v := state.GetSlot(slot);
      if v.Ok? {
        ok := PushFormulaOver(state, cur.value, 1, OP_SLOAD, Bytes32(value), [], [cur.value.stack[|cur.value.stack| - 1], v.value], true);
      }
    }
  }

  /**
   * `DataSStore`: pop the slot and the value, and store into the slot the
   * bytes of the `SSTORE` formula over (value, slot) whose result is the
   * recorded value.
   */
  method HandleSStore(state: TransactionDB, slot: Word, value: Word) returns (ok: bool)
    requires state.db.Valid()
    modifies state`states, state.db`formulasWithShorts, state.db`formulas, state.db.shorts, state.db.logger`written
    ensures state.db.Valid()
    ensures ok ==> CurFrame(old(state.Value())).Ok? && 2 <= |CurFrame(old(state.Value())).value.stack|
    ensures ok ==> StoredFormula(state.db.p, state.db.formulasWithShorts,
                                 UpdateFrameTx(old(state.Value()), Dropped(CurFrame(old(state.Value())).value, 2)).value,
                                 state.Value(), slot, value, Popped(CurFrame(old(state.Value())).value, 2).value.1)
    ensures CurFrame(old(state.Value())).Ok? && |CurFrame(old(state.Value())).value.stack| < 2 ==> !ok
  {
    var cur := state.Cur();
    if cur.Fail? || |cur.value.stack| < 2 {
      return false;
    }
    var q := Popped(cur.value, 2).value;
    var g, hs := FormulaOver(state.db, OP_SSTORE, Bytes32(value), [], q.1, true);
    if g.Fail? {
      return false;
    }
    assert ConstantHashes(state.db.p, []) + hs == hs;
    ok := SetSlotFrom(state, q.0, slot, FormulaBytes(g.value));
  }

  /**
   * What `DataSStore` leaves: the slot of `t`'s current account holding
   * the bytes of the `SSTORE` formula over the dependency formulas of the
   * popped (slot, value) entries taken back to front, with the recorded
   * value as its result.
   */
  ghost predicate StoredFormula(p: Prims, cache: Cache, t: Tx, t1: Tx, slot: Word, value: Word, popped: seq<Entry>)
  {
    && DepsResolve(p, cache, popped)
    && SetSlotTx(t, slot, FormulaBytes(FormulaNew(p, OP_SSTORE, Bytes32(value), DepOperands(p, cache, popped, true)))) == Ok(t1)
  }

  /** The frame written, then a slot of its account. */
  method SetSlotFrom(state: TransactionDB, f: StackedElement, slot: Word, val: seq<DEPByte>) returns (ok: bool)
    modifies state`states
    ensures ok <==> CurFrame(old(state.Value())).Ok?
    ensures ok ==> SetSlotTx(UpdateFrameTx(old(state.Value()), f).value, slot, val) == Ok(state.Value())
  {
    ok := state.UpdateFrame(f);
    if ok {
      ok := state.SetSlot(slot, val);
    }
  }

  // ---- transient storage ----

  /** `DataTLoad` as written: the loaded value is pushed and the slot operand stays on the stack. */
  function TLoadFrameAsWritten(p: Prims, f: StackedElement, value: seq<DEPByte>): (r: Result<StackedElement>)
    ensures r.Ok? <==> |value| <= 32
    ensures r.Ok? ==> r.value.stack == f.stack + [Padded(p, value)]
  {
    PushedN(p, f, value)
  }

  /** `DataTLoad` as `TLOAD` takes its operand: the slot popped, then the value pushed. */
  function TLoadFrame(p: Prims, f: StackedElement, value: seq<DEPByte>): (r: Result<StackedElement>)
    ensures r.Ok? <==> 1 <= |f.stack| && |value| <= 32
    ensures r.Ok? ==> r.value == f.(stack := f.stack[..|f.stack| - 1] + [Padded(p, value)])
  {
    match Popped(f, 1)
    case Fail(m) => Fail(m)
    case Ok(q) => PushedN(p, q.0, value)
  }

  /**
   * `TLOAD` takes one operand and leaves one result, so the formula stack
   * should keep its depth; as written it grows by one on every `TLOAD`,
   * and the entries below no longer line up with the EVM stack.
   */
  lemma TLoadAsWrittenGrows(p: Prims, f: StackedElement, value: seq<DEPByte>)
    requires 1 <= |f.stack| && |value| <= 32
    ensures TLoadFrameAsWritten(p, f, value).Ok? && |TLoadFrameAsWritten(p, f, value).value.stack| == |f.stack| + 1
    ensures TLoadFrame(p, f, value).Ok? && |TLoadFrame(p, f, value).value.stack| == |f.stack|
    ensures TLoadFrameAsWritten(p, f, value).value.stack[..|f.stack|] == f.stack
  {
  }

  /** `DataTLoad`, with the slot popped: read the transient slot and push its bytes. */
  method HandleTLoad(state: TransactionDB, slot: Word) returns (ok: bool)
    modifies state`states
    ensures var r := GetTransientTx(old(state.Value()), state.db.p, slot);
      (ok <==> r.Ok? && TLoadFrame(state.db.p, CurFrame(old(state.Value())).value, r.value.value).Ok?)
      && (ok ==> state.Value() == UpdateFrameTx(r.value.t, TLoadFrame(state.db.p, CurFrame(old(state.Value())).value, r.value.value).value).value)
  {
    var cur := state.Cur();
    if cur.Fail? {
      return false;
    }
    var v := state.GetTransient(slot);
    if v.Fail? {
      return false;
    }
    var f := TLoadFrame(state.db.p, cur.value, v.value);
    if f.Fail? {
      return false;
    }
    ok := state.UpdateFrame(f.value);
  }

  /** `DataTStore`: pop the slot and the value, and write the value's bytes into the transient slot. */
  function TStoreTx(t: Tx, slot: Word): (r: Result<Tx>)
    ensures r.Ok? ==> CurFrame(t).Ok? && 2 <= |CurFrame(t).value.stack| && CurFrame(r.value) == Ok(Dropped(CurFrame(t).value, 2))
  {
    match CurFrame(t)
    case Fail(m) => Fail(m)
    case Ok(f) =>
      match Popped(f, 2)
      case Fail(m) => Fail(m)
      case Ok(q) => SetTransientTx(UpdateFrameTx(t, q.0).value, slot, q.1[1])
  }

  /** A `DataTLoad` right after a `DataTStore` of the same slot reads the value the store popped. */
  lemma TStoreThenTLoad(t: Tx, p: Prims, slot: Word)
    requires TStoreTx(t, slot).Ok?
    ensures var f := CurFrame(t).value; var r := GetTransientTx(TStoreTx(t, slot).value, p, slot);
      r.Ok? && r.value.value == f.stack[|f.stack| - 2]
  {
    var f := CurFrame(t).value;
    var q := Popped(f, 2).value;
    var t1 := UpdateFrameTx(t, q.0).value;
    var s := t1.states[|t1.states| - 1];
    var o := WriteTransient(s.overlay, q.0.addr, slot, q.1[1]).value;
    assert TStoreTx(t, slot).value == WithCur(t1, s.(overlay := o));
    assert CurFrame(WithCur(t1, s.(overlay := o))) == Ok(q.0);
    assert o.transient.value[OverlayFrames.SlotKey(q.0.addr, slot)] == q.1[1];
  }

  method HandleTStore(state: TransactionDB, slot: Word) returns (ok: bool)
    modifies state`states
    ensures var r := TStoreTx(old(state.Value()), slot); (ok <==> r.Ok?) && (ok ==> state.Value() == r.value)
  {
    var cur := state.Cur();
    if cur.Fail? || |cur.value.stack| < 2 {
      return false;
    }
    var q := Popped(cur.value, 2).value;
    ok := state.UpdateFrame(q.0);
    ok := state.SetTransient(slot, q.1[1]);
  }

  // ---- formulas over memory, code and the environment ----

  /** The frame after `k` pops and a `Memory().Load(offset, size)`, with the bytes loaded. */
  function LoadedFrame(p: Prims, f: StackedElement, k: nat, offset: nat, size: nat): (r: (StackedElement, seq<DEPByte>))
    requires k <= |f.stack|
    ensures r.0.stack == f.stack[..|f.stack| - k] && r.0 == f.(stack := r.0.stack, memory := r.0.memory)
    ensures r.0.memory == LoadResult(p, f.memory, offset, size).0 && r.1 == LoadResult(p, f.memory, offset, size).1
  {
    var ld := LoadResult(p, f.memory, offset, size);
    (f.(stack := f.stack[..|f.stack| - k], memory := ld.0), ld.1)
  }

  /** `DataKeccak`: pop the offset and the size, load the bytes, and push `KECCAK` over them. */
  method HandleKeccak(state: TransactionDB, result: Hash, offset: U64, size: U64) returns (ok: bool)
    requires state.db.Valid()
    modifies state`states, state.db`formulasWithShorts, state.db`formulas, state.db.shorts, state.db.logger`written
    ensures state.db.Valid()
    ensures ok ==> CurFrame(old(state.Value())).Ok? && 2 <= |CurFrame(old(state.Value())).value.stack|
    ensures ok ==> var lf := LoadedFrame(state.db.p, CurFrame(old(state.Value())).value, 2, offset, size);
      PushedFormula(state.db.p, state.db.formulasWithShorts, lf.0, 0, old(state.Value()), state.Value(), OP_KECCAK, result, [], [lf.1], false)
    ensures CurFrame(old(state.Value())).Ok? && |CurFrame(old(state.Value())).value.stack| < 2 ==> !ok
  {
    var cur := state.Cur();
    if cur.Fail? || |cur.value.stack| < 2 {
      return false;
    }
    var lf := LoadedFrame(state.db.p, cur.value, 2, offset, size);
    ok := PushFormulaOver(state, lf.0, 0, OP_KECCAK, result, [], [lf.1], false);
  }

  /** What a size handle measures: the frame's code or calldata, or the transaction's return data. */
  datatype Measured = OfCode | OfCalldata | OfReturndata

  function MeasuredBytes(m: Measured, t: Tx, f: StackedElement): seq<DEPByte>
  {
    match m
    case OfCode => f.code
    case OfCalldata => f.calldata
    case OfReturndata => t.returndata
  }

  /**
   * `DataCodeSize`, `DataCalldataSize` and `DataReturndataSize`: push `SIZE`
   * over the measured bytes, with the recorded size as 8 big-endian bytes.
   */
  method HandleSize(state: TransactionDB, m: Measured, size: U64) returns (ok: bool)
    requires state.db.Valid()
    modifies state`states, state.db`formulasWithShorts, state.db`formulas, state.db.shorts, state.db.logger`written
    ensures state.db.Valid()
    ensures ok ==> CurFrame(old(state.Value())).Ok?
    ensures ok ==> var cur := CurFrame(old(state.Value())).value;
      PushedFormula(state.db.p, state.db.formulasWithShorts, cur, 0, old(state.Value()), state.Value(),
                    OP_SIZE, BE64(size), [], [MeasuredBytes(m, old(state.Value()), cur)], false)
  {
    var cur := state.Cur();
    if cur.Fail? {
      return false;
    }
    var bytes := MeasuredBytes(m, state.Value(), cur.value);
    ok := PushFormulaOver(state, cur.value, 0, OP_SIZE, BE64(size), [], [bytes], false);
  }

  /**
   * `DataExtCodeSize` (`CODESIZE` over the size) and `DataExtCodeHash`
   * (`CODEKECCAK` over the hash): pop the address, and push the formula over
   * (code of the recorded address, address bytes of the popped entry).
   */
  method HandleExtCode(state: TransactionDB, op: Byte, address: Address, result: seq<Byte>) returns (ok: bool)
    requires state.db.Valid()
    modifies state`states, state.db`formulasWithShorts, state.db`formulas, state.db.shorts, state.db.logger`written
    ensures state.db.Valid()
    ensures ok ==> CurFrame(old(state.Value())).Ok? && 1 <= |CurFrame(old(state.Value())).value.stack|
    ensures ok ==> |state.db.codesDB| < U64_LIMIT && GetCodeTx(old(state.Value()), state.BaseOf(), address).Ok?
    ensures ok ==> var cur := CurFrame(old(state.Value())).value;
      var read := GetCodeTx(old(state.Value()), state.BaseOf(), address).value;
      PushedFormula(state.db.p, state.db.formulasWithShorts, cur, 1, read.t, state.Value(), op, result, [],
                    [AddressPart(cur.stack[|cur.stack| - 1]), read.value.data], true)
    ensures CurFrame(old(state.Value())).Ok? && |CurFrame(old(state.Value())).value.stack| == 0 ==> !ok
  {
    ok := false;
    var cur := state.Cur();
    if cur.Ok? && |cur.value.stack| >= 1 && |state.db.codesDB| < U64_LIMIT {
      var c := state.GetCode(address);
      if c.Ok? {
        var top := cur.value.stack[|cur.value.stack| - 1];
        ok := PushFormulaOver(state, cur.value, 1, op, result, [], [AddressPart(top), c.value.data], true);
      }
    }
  }

  /** `DataExtCodeCopy`: pop four entries and copy the recorded account's code into memory. */
  function ExtCodeCopied(p: Prims, f: StackedElement, code: seq<DEPByte>, memoryOffset: U64, codeOffset: U64, length: U64)
    : (r: Result<StackedElement>)
    ensures r.Ok? <==> 4 <= |f.stack|
    ensures r.Ok? ==> r.value == f.(stack := f.stack[..|f.stack| - 4],
                                    memory := AfterSetN(p, f.memory, memoryOffset, OverflowSlice(p, code, codeOffset, length)))
  {
    if |f.stack| < 1 then Fail("index out of range")
    else CopiedInto(p, Dropped(f, 1), memoryOffset, code, codeOffset, length)
  }

  method HandleExtCodeCopy(state: TransactionDB, address: Address, memoryOffset: U64, codeOffset: U64, length: U64)
    returns (ok: bool)
    modifies state`states
    ensures ok ==> CurFrame(old(state.Value())).Ok?
    ensures ok ==> |state.db.codesDB| < U64_LIMIT && GetCodeTx(old(state.Value()), state.BaseOf(), address).Ok?
    ensures ok ==> var r := GetCodeTx(old(state.Value()), state.BaseOf(), address).value;
      ExtCodeCopied(state.db.p, CurFrame(old(state.Value())).value, r.value.data, memoryOffset, codeOffset, length).Ok?
      && state.Value() == UpdateFrameTx(r.t, ExtCodeCopied(state.db.p, CurFrame(old(state.Value())).value, r.value.data,
                                                            memoryOffset, codeOffset, length).value).value
    ensures CurFrame(old(state.Value())).Ok? && |CurFrame(old(state.Value())).value.stack| < 4 ==> !ok
  {
    ok := false;
    var cur := state.Cur();
    if cur.Ok? && |state.db.codesDB| < U64_LIMIT {
      var c := state.GetCode(address);
      if c.Ok? {
        var f := ExtCodeCopied(state.db.p, cur.value, c.value.data, memoryOffset, codeOffset, length);
        if f.Ok? {
          ok := state.UpdateFrame(f.value);
        }
      }
    }
  }

  /**
   * `DataBalance`: the balance as a constant, then pop the address and
   * push `BALANCE` over (the constant, the address bytes of the entry).
   */
  method HandleBalance(state: TransactionDB, balance: Word) returns (ok: bool)
    requires state.db.Valid()
    modifies state`states, state.db`formulasWithShorts, state.db`formulas, state.db.shorts, state.db.logger`written
    ensures state.db.Valid()
    ensures ok ==> CurFrame(old(state.Value())).Ok? && 1 <= |CurFrame(old(state.Value())).value.stack|
    ensures ok ==> var cur := CurFrame(old(state.Value())).value;
      PushedFormula(state.db.p, state.db.formulasWithShorts, cur, 1, old(state.Value()), state.Value(),
                    OP_BALANCE, Bytes32(balance), ConstantHashes(state.db.p, [Bytes32(balance)]),
                    [AddressPart(cur.stack[|cur.stack| - 1])], false)
    ensures CurFrame(old(state.Value())).Ok? && |CurFrame(old(state.Value())).value.stack| == 0 ==> !ok
  {
    var cur := state.Cur();
    if cur.Fail? || |cur.value.stack| < 1 {
      return false;
    }
    var top := cur.value.stack[|cur.value.stack| - 1];
    ok := PushFormulaOver(state, cur.value, 1, OP_BALANCE, Bytes32(balance), [Bytes32(balance)], [AddressPart(top)], false);
  }

  /** `DataSelfBalance`: `BALANCE` over (the balance, the frame's address), both as constants. */
  method HandleSelfBalance(state: TransactionDB, balance: Word) returns (ok: bool)
    requires state.db.Valid()
    modifies state`states, state.db`formulasWithShorts, state.db`formulas, state.db.shorts, state.db.logger`written
    ensures state.db.Valid()
    ensures ok ==> CurFrame(old(state.Value())).Ok?
    ensures ok ==> PushedFormula(state.db.p, state.db.formulasWithShorts, CurFrame(old(state.Value())).value, 0,
                                 old(state.Value()), state.Value(), OP_BALANCE, Bytes32(balance),
                                 ConstantHashes(state.db.p, [Bytes32(balance), CurFrame(old(state.Value())).value.addr]), [], false)
  {
    var cur := state.Cur();
    if cur.Fail? {
      return false;
    }
    ok := PushFormulaOver(state, cur.value, 0, OP_BALANCE, Bytes32(balance), [Bytes32(balance), cur.value.addr], [], false);
  }

  /**
   * `DataBlockHash` (`BLOCKHASH`) and `DataBlobHash` (`BLOBHASH`): the hash
   * as a constant, then pop the index and push the formula over (the
   * constant, the popped entry).
   */
  method HandleHashOf(state: TransactionDB, op: Byte, hash: Hash) returns (ok: bool)
    requires state.db.Valid()
    modifies state`states, state.db`formulasWithShorts, state.db`formulas, state.db.shorts, state.db.logger`written
    ensures state.db.Valid()
    ensures ok ==> CurFrame(old(state.Value())).Ok? && 1 <= |CurFrame(old(state.Value())).value.stack|
    ensures ok ==> var cur := CurFrame(old(state.Value())).value;
      PushedFormula(state.db.p, state.db.formulasWithShorts, cur, 1, old(state.Value()), state.Value(),
                    op, hash, ConstantHashes(state.db.p, [hash]), [cur.stack[|cur.stack| - 1]], false)
    ensures CurFrame(old(state.Value())).Ok? && |CurFrame(old(state.Value())).value.stack| == 0 ==> !ok
  {
    var cur := state.Cur();
    if cur.Fail? || |cur.value.stack| < 1 {
      return false;
    }
    ok := PushFormulaOver(state, cur.value, 1, op, hash, [hash], [cur.value.stack[|cur.value.stack| - 1]], false);
  }

  /**
   * `DataLog`: pop the offset and the size, load the data, then pop one
   * entry per topic, and record a log of the data formula and one formula
   * per topic.
   */
  method HandleLog(state: TransactionDB, offset: U64, size: U64, topicsNum: int) returns (ok: bool)
    requires state.db.Valid()
    modifies state`states, state.db`formulasWithShorts, state.db`formulas, state.db.shorts, state.db.logger`written
    ensures state.db.Valid()
    ensures ok ==> CurFrame(old(state.Value())).Ok? && 2 + Times(topicsNum) <= |CurFrame(old(state.Value())).value.stack|
    ensures ok ==> var lf := LoadedFrame(state.db.p, CurFrame(old(state.Value())).value, 2, offset, size);
      var q := Popped(lf.0, Times(topicsNum)).value;
      var cache := state.db.formulasWithShorts;
      && DepOf(state.db.p, cache, lf.1).Ok? && DepsResolve(state.db.p, cache, q.1)
      && AddLogTx(UpdateFrameTx(old(state.Value()), q.0).value, DepOf(state.db.p, cache, lf.1).value,
                  DepFormulas(state.db.p, cache, q.1)) == Ok(state.Value())
    ensures CurFrame(old(state.Value())).Ok? && |CurFrame(old(state.Value())).value.stack| < 2 + Times(topicsNum) ==> !ok
  {
    var cur := state.Cur();
    var n := Times(topicsNum);
    if cur.Fail? || |cur.value.stack| < 2 + n {
      return false;
    }
    var lf := LoadedFrame(state.db.p, cur.value, 2, offset, size);
    var ds;
    ok, ds := Deps(state.db, [lf.1]);
    if !ok {
      return;
    }
    ghost var c1 := state.db.formulasWithShorts;
    assert DepOf(state.db.p, c1, lf.1) == Ok(ds[0]);
    var q := Popped(lf.0, n).value;
    var ts;
    ok, ts := Deps(state.db, q.1);
    if !ok {
      return;
    }
    DepOfExtends(state.db.p, c1, state.db.formulasWithShorts, lf.1);
    ok := state.UpdateFrame(q.0);
    if !ok {
      return;
    }
    ghost var t1 := state.Value();
    ok := state.AddLog(ds[0], ts);
    if ok {
      assert q.0 == Dropped(lf.0, n);
      assert AddLogTx(t1, ds[0], ts) == Ok(state.Value());
    }
  }

  // ---- leaving and entering frames ----

  /**
   * `DataReturn` and `DataRevert`: pop the offset and the size, load the
   * returned bytes, then `Return` them (with the recorded output) or
   * `Revert` with them.
   */
  function ReturnedTx(t: Tx, p: Prims, offset: U64, size: U64, returned: seq<Byte>, revert: bool): (r: Result<Tx>)
    ensures r.Ok? ==> CurFrame(t).Ok? && 2 <= |CurFrame(t).value.stack|
  {
    match CurFrame(t)
    case Fail(m) => Fail(m)
    case Ok(f) =>
      if |f.stack| < 2 then Fail("index out of range")
      else
        var lf := LoadedFrame(p, f, 2, offset, size);
        var t1 := UpdateFrameTx(t, lf.0).value;
        if revert then RevertTx(t1, lf.1) else ReturnTx(t1, p, lf.1, returned)
  }

  /** A `DataRevert` drops the current state whatever its frame was, and keeps the loaded bytes as the return data. */
  lemma RevertedIsRevert(t: Tx, p: Prims, offset: U64, size: U64)
    requires ReturnedTx(t, p, offset, size, [], true).Ok?
    ensures var f := CurFrame(t).value;
      ReturnedTx(t, p, offset, size, [], true).value == Tx(t.states[..|t.states| - 1], LoadResult(p, f.memory, offset, size).1)
  {
    var f := CurFrame(t).value;
    var lf := LoadedFrame(p, f, 2, offset, size);
    assert |UpdateFrameTx(t, lf.0).value.states| == |t.states|;
    assert UpdateFrameTx(t, lf.0).value.states[..|t.states| - 1] == t.states[..|t.states| - 1];
  }

  method HandleReturned(state: TransactionDB, offset: U64, size: U64, returned: seq<Byte>, revert: bool) returns (ok: bool)
    modifies state
    ensures var r := ReturnedTx(old(state.Value()), state.db.p, offset, size, returned, revert);
      (ok <==> r.Ok?) && (ok ==> state.Value() == r.value)
  {
    var cur := state.Cur();
    if cur.Fail? || |cur.value.stack| < 2 {
      return false;
    }
    var lf := LoadedFrame(state.db.p, cur.value, 2, offset, size);
    ok := state.UpdateFrame(lf.0);
    if revert {
      ok := state.Revert(lf.1);
    } else {
      ok := state.Return(lf.1, returned);
    }
  }

  /** `DataError`: a revert with no data, or a return of nothing. */
  method HandleError(state: TransactionDB, reverted: bool) returns (ok: bool)
    modifies state
    ensures var r := if reverted then RevertTx(old(state.Value()), []) else ReturnTx(old(state.Value()), state.db.p, [], []);
      (ok <==> r.Ok?) && (ok ==> state.Value() == r.value)
  {
    if reverted {
      ok := state.Revert([]);
    } else {
      ok := state.Return([], []);
    }
  }

  /**
   * `DataSelfdestruct` and `DataSelfdestruct6780`: pop the beneficiary,
   * then destruct the frame's account; under EIP-6780 only an account
   * created in this transaction is destructed, and any other frame just
   * returns nothing.
   */
  function SelfdestructedTx(t: Tx, p: Prims, eip6780: bool): (r: Result<Tx>)
    ensures r.Ok? ==> CurFrame(t).Ok? && 1 <= |CurFrame(t).value.stack|
  {
    match CurFrame(t)
    case Fail(m) => Fail(m)
    case Ok(f) =>
      if |f.stack| < 1 then Fail("index out of range")
      else
        var t1 := UpdateFrameTx(t, Dropped(f, 1)).value;
        if !eip6780 || IsCreated(t1.states[|t1.states| - 1].overlay, f.addr) then SelfdestructTx(t1, p)
        else ReturnTx(t1, p, [], [])
  }

  /**
   * Under EIP-6780 the frame's account lands in the parent's destructed set
   * when it was created in this transaction; otherwise the parent's
   * overlay is the frame's own, and the destructed set is unchanged.
   */
  lemma Selfdestructed6780(t: Tx, p: Prims)
    requires SelfdestructedTx(t, p, true).Ok?
    ensures var f := CurFrame(t).value; var s := t.states[|t.states| - 1]; var r := SelfdestructedTx(t, p, true).value;
      |t.states| >= 2 && |r.states| == |t.states| - 1
      && (IsCreated(s.overlay, f.addr) ==> f.addr in r.states[|t.states| - 2].overlay.selfdestructed)
      && (!IsCreated(s.overlay, f.addr) && !f.isCreate ==> r.states[|t.states| - 2].overlay == s.overlay)
  {
    var f := CurFrame(t).value;
    var t1 := UpdateFrameTx(t, Dropped(f, 1)).value;
    assert t1.states[|t1.states| - 1].overlay == t.states[|t.states| - 1].overlay;
    assert CurFrame(t1).value.isCreate == f.isCreate;
  }

  method HandleSelfdestruct(state: TransactionDB, eip6780: bool) returns (ok: bool)
    modifies state
    ensures var r := SelfdestructedTx(old(state.Value()), state.db.p, eip6780);
      (ok <==> r.Ok?) && (ok ==> state.Value() == r.value)
  {
    var cur := state.Cur();
    if cur.Fail? || |cur.value.stack| < 1 {
      return false;
    }
    ok := state.UpdateFrame(Dropped(cur.value, 1));
    var created := state.Created(cur.value.addr);
    if !eip6780 || created.value {
      ok := state.Selfdestruct();
    } else {
      ok := state.Return([], []);
    }
  }

  /**
   * `DataCreateStart` (three operands) and `DataCreate2Start` (four): pop
   * them, load the init code, and `Create` a frame for the new address
   * whose code account is the zero address.
   */
  function CreatedTx(t: Tx, p: Prims, b: Base, k: nat, address: Address, offset: U64, size: U64, initcodeBin: seq<Byte>)
    : (r: Result<Tx>)
    ensures r.Ok? ==> CurFrame(t).Ok? && k <= |CurFrame(t).value.stack|
  {
    match CurFrame(t)
    case Fail(m) => Fail(m)
    case Ok(f) =>
      if |f.stack| < k then Fail("index out of range")
      else
        var lf := LoadedFrame(p, f, k, offset, size);
        CreateTx(UpdateFrameTx(t, lf.0).value, p, b, address, ZERO_ADDRESS, lf.1, initcodeBin)
  }

  /** A create puts the caller's frame, popped and with memory loaded, below a new create frame running the loaded bytes. */
  lemma CreatedFrames(t: Tx, p: Prims, b: Base, k: nat, address: Address, offset: U64, size: U64, initcodeBin: seq<Byte>)
    requires CreatedTx(t, p, b, k, address, offset, size, initcodeBin).Ok?
    ensures var f := CurFrame(t).value; var r := CreatedTx(t, p, b, k, address, offset, size, initcodeBin).value;
      var n := |t.states|; var lf := LoadedFrame(p, f, k, offset, size);
      |r.states| == n + 1 && r.states[..n - 1] == t.states[..n - 1]
      && CurFrame(r).Ok? && CurFrame(r).value.isCreate && CurFrame(r).value.addr == address
      && CurFrame(r).value.code == lf.1 && CurFrame(r).value.codeAddr == ZERO_ADDRESS
      && r.states[n - 1].frames[|r.states[n - 1].frames| - 1] == lf.0
  {
    var f := CurFrame(t).value;
    var lf := LoadedFrame(p, f, k, offset, size);
    var t1 := UpdateFrameTx(t, lf.0).value;
    assert t1.states[..|t.states| - 1] == t.states[..|t.states| - 1];
    assert CurFrame(t1) == Ok(lf.0);
  }

  method HandleCreateStart(state: TransactionDB, k: nat, address: Address, offset: U64, size: U64, initcodeBin: seq<Byte>)
    returns (ok: bool)
    modifies state, state.db.logger`context
    ensures var r := CreatedTx(old(state.Value()), state.db.p, state.BaseOf(), k, address, offset, size, initcodeBin);
      (ok <==> r.Ok?) && (ok ==> state.Value() == r.value)
    ensures ok ==> ContextOf(state.db.logger.context, old(state.db.logger.context), CurFrame(state.Value()).value)
  {
    var cur := state.Cur();
    if cur.Fail? || |cur.value.stack| < k {
      return false;
    }
    var lf := LoadedFrame(state.db.p, cur.value, k, offset, size);
    ok := state.UpdateFrame(lf.0);
    ok := state.Create(address, ZERO_ADDRESS, lf.1, initcodeBin);
    if ok {
      ok := SetContract(state);
    }
  }

  /**
   * `DataCreateEnd` (`CREATEADDR`) and `DataCreate2End` (`CREATE2ADDR`):
   * push the new address as a constant, and point the logger at the
   * current frame again.
   */
  method HandleCreateEnd(state: TransactionDB, op: Byte, address: Address) returns (ok: bool)
    requires state.db.Valid()
    modifies state`states, state.db`formulasWithShorts, state.db`formulas, state.db.shorts, state.db.logger`written
    modifies state.db.logger`context
    ensures state.db.Valid()
    ensures ok ==> CurFrame(old(state.Value())).Ok?
    ensures ok ==> (state.Value() ==
      UpdateFrameTx(old(state.Value()), WithFormula(state.db.p, CurFrame(old(state.Value())).value, 0, ConstantNew(state.db.p, op, address))).value)
    ensures ok ==> ContextOf(state.db.logger.context, old(state.db.logger.context), CurFrame(state.Value()).value)
  {
    ok := HandleConstant(state, op, address);
    if ok {
      ok := SetContract(state);
    }
  }

  /**
   * `DataCallStart`: pop the call's `n` operands, load its input, and
   * `Call` `address` running the code of `codeAddress` on that input.
   */
  function CalledTx(t: Tx, p: Prims, b: Base, n: int, address: Address, codeAddress: Address, inOffset: U64, inSize: U64)
    : (r: Result<Tx>)
    requires |b.codes| < U64_LIMIT
    ensures r.Ok? ==> CurFrame(t).Ok? && Times(n) <= |CurFrame(t).value.stack|
  {
    match CurFrame(t)
    case Fail(m) => Fail(m)
    case Ok(f) =>
      if |f.stack| < Times(n) then Fail("index out of range")
      else
        var lf := LoadedFrame(p, f, Times(n), inOffset, inSize);
        CallTx(UpdateFrameTx(t, lf.0).value, b, address, codeAddress, lf.1)
  }

  /**
   * A call that reverts gives back the caller's states before the call,
   * except that the caller's frame has its operands popped and its memory
   * grown by the input load.
   */
  lemma CalledThenReverted(t: Tx, p: Prims, b: Base, n: int, address: Address, codeAddress: Address,
                           inOffset: U64, inSize: U64, rd: seq<DEPByte>)
    requires |b.codes| < U64_LIMIT && CalledTx(t, p, b, n, address, codeAddress, inOffset, inSize).Ok?
    ensures var lf := LoadedFrame(p, CurFrame(t).value, Times(n), inOffset, inSize);
      RevertTx(CalledTx(t, p, b, n, address, codeAddress, inOffset, inSize).value, rd)
        == Ok(Tx(UpdateFrameTx(t, lf.0).value.states, rd))
  {
    var lf := LoadedFrame(p, CurFrame(t).value, Times(n), inOffset, inSize);
    CallThenRevert(UpdateFrameTx(t, lf.0).value, b, address, codeAddress, lf.1, rd);
  }

  method HandleCallStart(state: TransactionDB, n: int, address: Address, codeAddress: Address, inOffset: U64, inSize: U64)
    returns (ok: bool)
    modifies state, state.db.logger`context
    ensures ok ==> |state.db.codesDB| < U64_LIMIT
    ensures |state.db.codesDB| < U64_LIMIT ==>
      var r := CalledTx(old(state.Value()), state.db.p, state.BaseOf(), n, address, codeAddress, inOffset, inSize);
      (ok <==> r.Ok?) && (ok ==> state.Value() == r.value)
    ensures ok ==> ContextOf(state.db.logger.context, old(state.db.logger.context), CurFrame(state.Value()).value)
  {
    var cur := state.Cur();
    if cur.Fail? || |cur.value.stack| < Times(n) || |state.db.codesDB| >= U64_LIMIT {
      return false;
    }
    var lf := LoadedFrame(state.db.p, cur.value, Times(n), inOffset, inSize);
    ok := CallWithFrame(state, lf.0, address, codeAddress, lf.1);
    if ok {
      ok := SetContract(state);
    }
  }

  /** The caller's frame replaced by `f`, then the `Call` of `address` on `calldata`. */
  method CallWithFrame(state: TransactionDB, f: StackedElement, address: Address, codeAddress: Address,
                       calldata: seq<DEPByte>) returns (ok: bool)
    requires |state.db.codesDB| < U64_LIMIT && CurFrame(state.Value()).Ok?
    modifies state
    ensures var r := CallTx(UpdateFrameTx(old(state.Value()), f).value, state.BaseOf(), address, codeAddress, calldata);
      (ok <==> r.Ok?) && (ok ==> state.Value() == r.value)
  {
    ok := state.UpdateFrame(f);
    ok := state.Call(address, codeAddress, calldata);
  }

  /** `DataCallEnd`'s frame: the first `returnSize` bytes of the return data written at `returnOffset`. */
  function CallEndFrame(p: Prims, f: StackedElement, rd: seq<DEPByte>, returnOffset: U64, returnSize: U64): (r: StackedElement)
    ensures r == f.(memory := AfterSetN(p, f.memory, returnOffset, OverflowSlice(p, rd, 0, returnSize)))
  {
    f.(memory := AfterSetN(p, f.memory, returnOffset, OverflowSlice(p, rd, 0, returnSize)))
  }

  /** The `CALLRESULT` constant's one byte: 1 for success, 0 for failure. */
  function CallResultByte(success: bool): (r: seq<Byte>)
    ensures |r| == 1 && (r[0] == 1 <==> success) && (r[0] == 0 <==> !success)
  {
    if success then [1] else [0]
  }

  /**
   * `DataCallEnd`: copy the return data into the caller's memory, push the
   * call's result as a `CALLRESULT` constant, and point the logger at the
   * caller's frame again.
   */
  method HandleCallEnd(state: TransactionDB, success: bool, returnOffset: U64, returnSize: U64) returns (ok: bool)
    requires state.db.Valid()
    modifies state`states, state.db`formulasWithShorts, state.db`formulas, state.db.shorts, state.db.logger`written
    modifies state.db.logger`context
    ensures state.db.Valid()
    ensures ok ==> CurFrame(old(state.Value())).Ok?
    ensures ok ==> var f := CallEndFrame(state.db.p, CurFrame(old(state.Value())).value, old(state.Value()).returndata, returnOffset, returnSize);
      state.Value() == UpdateFrameTx(old(state.Value()), WithFormula(state.db.p, f, 0, ConstantNew(state.db.p, OP_CALL_RESULT, CallResultByte(success)))).value
    ensures ok ==> ContextOf(state.db.logger.context, old(state.db.logger.context), CurFrame(state.Value()).value)
  {
    var cur := state.Cur();
    if cur.Fail? {
      return false;
    }
    var f := CallEndFrame(state.db.p, cur.value, state.returndata, returnOffset, returnSize);
    var g := NewConstant(state.db, OP_CALL_RESULT, CallResultByte(success));
    if g.Fail? {
      return false;
    }
    ok := PushFormulaOnto(state, f, 0, g.value);
    if ok {
      ok := SetContract(state);
    }
  }
}
