// The transaction database (tracer/dep_tracer/transientdb.go): a stack of
// transaction states, one per open call, each with its own overlay, call
// frames and logs.  A call or create copies the current state and pushes a
// frame onto the copy; a revert drops the copy; a return makes the copy the
// parent's state and drops its frame.  A state owns its overlay and frames
// (every copy is deep), so it is a value `TxState` here; `Tx` is the whole
// database as a value, the functions below are its transitions, and the
// class `TransactionDB` is the object the operation handlers drive.
module Transactions {
  import opened Common
  import opened Formulas
  import opened DepBytes
  import opened FormulaStack
  import opened Logging
  import opened SimpleDbLayout
  import opened SimpleDb
  import opened FormulaDeps
  import opened Shorterning
  import opened OverlayFrames
  import opened Overlays
  import opened StackedFrames
  import opened Opcodes

  datatype TxState = TxState(overlay: Overlay, frames: seq<StackedElement>, logs: seq<Log>)

  datatype Tx = Tx(states: seq<TxState>, returndata: seq<DEPByte>)

  /** A transition that also reads something. */
  datatype TxRead<T> = TxRead(t: Tx, value: T)

  /**
   * `transactionStateNew`: a new overlay (with no transient map), the
   * account's version read through it, and one frame with no calldata,
   * no code and zero hashes.
   */
  function StateNew(b: Base, isCreate: bool, addr: Address, codeAddr: Address): (r: Result<TxState>)
    ensures r.Ok? <==> VersionRead(b.versions, addr).Ok?
    ensures r.Ok? ==> r.value.logs == [] && r.value.overlay.transient == None
    ensures r.Ok? ==> (r.value.frames ==
      [StackedElementNew(isCreate, addr, VersionRead(b.versions, addr).value, codeAddr, [], [], ZERO_HASH, ZERO_HASH)])
  {
    match ReadVersion(OverlayNew(), b, addr)
    case Fail(m) => Fail(m)
    case Ok(v) => Ok(TxState(v.o, [StackedElementNew(isCreate, addr, v.value, codeAddr, [], [], ZERO_HASH, ZERO_HASH)], []))
  }

  /** `TransactionState.Copy`: the overlay copied (with a transient map), the frames and logs kept as they are. */
  function StateCopy(s: TxState): (r: TxState)
    ensures r == s.(overlay := OverlayCopy(s.overlay))
    ensures r.overlay.transient.Some?
  {
    TxState(OverlayCopy(s.overlay), seq(|s.frames|, i requires 0 <= i < |s.frames| => ElementCopy(s.frames[i])), s.logs)
  }

  /** `TransactionState.Copy` over the `StackedElement.Copy` as written, which drops every frame's init-code hash. */
  function StateCopyAsWritten(s: TxState): (r: TxState)
    ensures r.overlay == OverlayCopy(s.overlay) && r.logs == s.logs && |r.frames| == |s.frames|
    ensures forall i :: 0 <= i < |s.frames| ==> r.frames[i] == s.frames[i].(initcodeHash := ZERO_HASH)
  {
    TxState(OverlayCopy(s.overlay),
            seq(|s.frames|, i requires 0 <= i < |s.frames| => ElementCopyAsWritten(s.frames[i])), s.logs)
  }

  /** `curState`; with no state the index panics. */
  function CurState(t: Tx): (r: Result<TxState>)
    ensures r.Ok? <==> |t.states| > 0
    ensures r.Ok? ==> r.value == t.states[|t.states| - 1]
  {
    if |t.states| == 0 then Fail("index out of range") else Ok(t.states[|t.states| - 1])
  }

  /** `stacked.Cur()` of the current state: the innermost frame. */
  function CurFrame(t: Tx): (r: Result<StackedElement>)
    ensures r.Ok? <==> |t.states| > 0 && |t.states[|t.states| - 1].frames| > 0
    ensures r.Ok? ==> r.value == t.states[|t.states| - 1].frames[|t.states[|t.states| - 1].frames| - 1]
  {
    match CurState(t)
    case Fail(m) => Fail(m)
    case Ok(s) => Top(s.frames)
  }

  /** `setState`: the current state replaced. */
  function WithCur(t: Tx, s: TxState): Tx
    requires |t.states| > 0
  {
    t.(states := t.states[|t.states| - 1 := s])
  }

  /**
   * `Call` with `dup` as the copy of the current state: the copy is pushed,
   * the return data cleared, and a non-create frame for `addr` running the
   * code at `codeAddr` pushed onto the copy, with the version and code read
   * (and cached) through the copy's overlay.  The three code reads of the
   * source are one read here: after the first they are served by the cache.
   */
  function CallOn(t: Tx, dup: TxState, b: Base, addr: Address, codeAddr: Address, calldata: seq<DEPByte>): (r: Result<Tx>)
    requires |b.codes| < U64_LIMIT
    ensures r.Ok? ==> |r.value.states| == |t.states| + 1 && r.value.states[..|t.states|] == t.states
    ensures r.Ok? ==> r.value.returndata == []
    ensures r.Ok? ==> var s := r.value.states[|t.states|];
      s.logs == dup.logs && |s.frames| == |dup.frames| + 1 && s.frames[..|dup.frames|] == dup.frames
      && s.overlay == dup.overlay.(versions := s.overlay.versions, codes := s.overlay.codes)
  {
    match ReadVersion(dup.overlay, b, addr)
    case Fail(m) => Fail(m)
    case Ok(v) =>
      match ReadCode(v.o, b, codeAddr)
      case Fail(m) => Fail(m)
      case Ok(c) =>
        var frame := StackedElementNew(false, addr, v.value, codeAddr, calldata, c.value.data, c.value.codeHash, c.value.initcodeHash);
        Ok(Tx(t.states + [TxState(c.o, dup.frames + [frame], dup.logs)], []))
  }

  function CallTx(t: Tx, b: Base, addr: Address, codeAddr: Address, calldata: seq<DEPByte>): (r: Result<Tx>)
    requires |b.codes| < U64_LIMIT
    ensures |t.states| == 0 ==> r.Fail?
  {
    match CurState(t)
    case Fail(m) => Fail(m)
    case Ok(s) => CallOn(t, StateCopy(s), b, addr, codeAddr, calldata)
  }

  /** `Call` over the `StackedElement.Copy` as written. */
  function CallTxAsWritten(t: Tx, b: Base, addr: Address, codeAddr: Address, calldata: seq<DEPByte>): (r: Result<Tx>)
    requires |b.codes| < U64_LIMIT
    ensures |t.states| == 0 ==> r.Fail?
  {
    match CurState(t)
    case Fail(m) => Fail(m)
    case Ok(s) => CallOn(t, StateCopyAsWritten(s), b, addr, codeAddr, calldata)
  }

  /**
   * `Create`: like `Call`, but the frame is a create frame with no calldata,
   * running the init code, whose code hash and init-code hash are both the
   * SHA-256 of the init code's bytes.
   */
  function CreateTx(t: Tx, p: Prims, b: Base, addr: Address, codeAddr: Address, initcode: seq<DEPByte>, initcodeBin: seq<Byte>)
    : (r: Result<Tx>)
    ensures r.Ok? <==> |t.states| > 0 && ReadVersion(t.states[|t.states| - 1].overlay, b, addr).Ok?
    ensures r.Ok? ==> |r.value.states| == |t.states| + 1 && r.value.states[..|t.states|] == t.states
    ensures r.Ok? ==> r.value.returndata == []
    ensures r.Ok? ==> var s := r.value.states[|t.states|];
      |s.frames| > 0 &&
      (var f := s.frames[|s.frames| - 1];
       && f.isCreate && f.addr == addr && f.codeAddr == codeAddr && f.calldata == [] && f.code == initcode
       && f.codeHash == p.sha256(initcodeBin) && f.initcodeHash == p.sha256(initcodeBin))
  {
    match CurState(t)
    case Fail(m) => Fail(m)
    case Ok(s0) =>
      var s := StateCopy(s0);
      var codeHash := p.sha256(initcodeBin);
      match ReadVersion(s.overlay, b, addr)
      case Fail(m) => Fail(m)
      case Ok(v) =>
        var frame := StackedElementNew(true, addr, v.value, codeAddr, [], initcode, codeHash, codeHash);
        Ok(Tx(t.states + [TxState(v.o, s.frames + [frame], s.logs)], []))
  }

  /** `Revert`: the current state dropped, with everything it wrote; the return data kept. */
  function RevertTx(t: Tx, returndata: seq<DEPByte>): (r: Result<Tx>)
    ensures r.Ok? <==> |t.states| > 0
    ensures r.Ok? ==> r.value == Tx(t.states[..|t.states| - 1], returndata)
  {
    if |t.states| == 0 then Fail("index out of range")
    else Ok(Tx(t.states[..|t.states| - 1], returndata))
  }

  /**
   * `Return`: a create frame first stores the returned bytes as the code of
   * its address (with its own code hash as the init-code hash) and returns
   * no data.  Then the current state replaces its parent's and loses its
   * innermost frame.  With only one state left the parent is missing and
   * the source panics.
   */
  function ReturnTx(t: Tx, p: Prims, returndata: seq<DEPByte>, returndataBytes: seq<Byte>): (r: Result<Tx>)
    ensures r.Ok? <==> CurFrame(t).Ok? && |t.states| >= 2
    ensures r.Ok? ==> var n := |t.states|; var s := t.states[n - 1]; var f := CurFrame(t).value;
      && |r.value.states| == n - 1 && r.value.states[..n - 2] == t.states[..n - 2]
      && r.value.states[n - 2].frames == s.frames[..|s.frames| - 1] && r.value.states[n - 2].logs == s.logs
      && r.value.states[n - 2].overlay ==
           (if f.isCreate then WriteCode(s.overlay, p, f.addr, f.codeAddr, returndata, returndataBytes, f.codeHash) else s.overlay)
      && r.value.returndata == (if f.isCreate then [] else returndata)
  {
    match CurFrame(t)
    case Fail(m) => Fail(m)
    case Ok(f) =>
      var n := |t.states|;
      var s := t.states[n - 1];
      var o := if f.isCreate then WriteCode(s.overlay, p, f.addr, f.codeAddr, returndata, returndataBytes, f.codeHash) else s.overlay;
      var data := if f.isCreate then [] else returndata;
      if n < 2 then Fail("index out of range")
      else Ok(Tx(t.states[..n - 2] + [TxState(o, s.frames[..|s.frames| - 1], s.logs)], data))
  }

  /** `Selfdestruct`: the frame's address marked destructed, then a `Return` of nothing. */
  function SelfdestructTx(t: Tx, p: Prims): (r: Result<Tx>)
    ensures r.Ok? <==> CurFrame(t).Ok? && |t.states| >= 2
    ensures r.Ok? ==> |t.states| >= 2 && |r.value.states| == |t.states| - 1 && CurFrame(t).value.addr in r.value.states[|t.states| - 2].overlay.selfdestructed
    ensures r.Ok? ==> r.value.returndata == []
  {
    match CurFrame(t)
    case Fail(m) => Fail(m)
    case Ok(f) =>
      var s := t.states[|t.states| - 1];
      ReturnTx(WithCur(t, s.(overlay := Destructed(s.overlay, f.addr))), p, [], [])
  }

  // ---- reads and writes through the current state ----

  /** `GetAddressVersion` through the current overlay. */
  function GetAddressVersionTx(t: Tx, b: Base, addr: Address): (r: Result<TxRead<U64>>)
    ensures r.Ok? ==> |t.states| > 0 && |r.value.t.states| == |t.states|
  {
    match CurState(t)
    case Fail(m) => Fail(m)
    case Ok(s) =>
      match ReadVersion(s.overlay, b, addr)
      case Fail(m) => Fail(m)
      case Ok(v) => Ok(TxRead(WithCur(t, s.(overlay := v.o)), v.value))
  }

  /** `GetSlot`: a slot of the current frame's account. */
  function GetSlotTx(t: Tx, p: Prims, b: Base, slot: Word): (r: Result<TxRead<seq<DEPByte>>>)
    ensures r.Ok? ==> CurFrame(t).Ok? && |r.value.t.states| == |t.states|
    ensures r.Ok? ==> CurFrame(r.value.t) == CurFrame(t) && r.value.t.returndata == t.returndata
  {
    match CurFrame(t)
    case Fail(m) => Fail(m)
    case Ok(f) =>
      var s := t.states[|t.states| - 1];
      match ReadSlot(s.overlay, p, b, f.addr, slot)
      case Fail(m) => Fail(m)
      case Ok(v) => Ok(TxRead(WithCur(t, s.(overlay := v.o)), v.value.data))
  }

  /** `SetSlot`: a slot of the current frame's account, written by its code address. */
  function SetSlotTx(t: Tx, slot: Word, val: seq<DEPByte>): (r: Result<Tx>)
    ensures r.Ok? <==> CurFrame(t).Ok?
    ensures r.Ok? ==> |r.value.states| == |t.states| && r.value.returndata == t.returndata
    ensures r.Ok? ==> CurFrame(r.value) == CurFrame(t)
  {
    match CurFrame(t)
    case Fail(m) => Fail(m)
    case Ok(f) =>
      var s := t.states[|t.states| - 1];
      Ok(WithCur(t, s.(overlay := WriteSlot(s.overlay, f.addr, f.codeAddr, slot, val))))
  }

  function GetTransientTx(t: Tx, p: Prims, slot: Word): (r: Result<TxRead<seq<DEPByte>>>)
    ensures r.Ok? ==> CurFrame(t).Ok? && |r.value.t.states| == |t.states|
    ensures r.Ok? ==> CurFrame(r.value.t) == CurFrame(t) && r.value.t.returndata == t.returndata
  {
    match CurFrame(t)
    case Fail(m) => Fail(m)
    case Ok(f) =>
      var s := t.states[|t.states| - 1];
      match ReadTransient(s.overlay, p, f.addr, slot)
      case Fail(m) => Fail(m)
      case Ok(v) => Ok(TxRead(WithCur(t, s.(overlay := v.o)), v.value))
  }

  function SetTransientTx(t: Tx, slot: Word, val: seq<DEPByte>): (r: Result<Tx>)
    ensures r.Ok? ==> CurFrame(t).Ok? && |r.value.states| == |t.states|
    ensures r.Ok? ==> CurFrame(r.value) == CurFrame(t) && r.value.returndata == t.returndata
  {
    match CurFrame(t)
    case Fail(m) => Fail(m)
    case Ok(f) =>
      var s := t.states[|t.states| - 1];
      match WriteTransient(s.overlay, f.addr, slot, val)
      case Fail(m) => Fail(m)
      case Ok(o) => Ok(WithCur(t, s.(overlay := o)))
  }

  /** `GetCode`, `GetCodeHash` and `GetInitcodeHash`: the code record of any account. */
  function GetCodeTx(t: Tx, b: Base, addr: Address): (r: Result<TxRead<OverlayCode>>)
    requires |b.codes| < U64_LIMIT
    ensures r.Ok? ==> |t.states| > 0 && |r.value.t.states| == |t.states|
    ensures r.Ok? ==> CurFrame(r.value.t) == CurFrame(t) && r.value.t.returndata == t.returndata
  {
    match CurState(t)
    case Fail(m) => Fail(m)
    case Ok(s) =>
      match ReadCode(s.overlay, b, addr)
      case Fail(m) => Fail(m)
      case Ok(c) => Ok(TxRead(WithCur(t, s.(overlay := c.o)), c.value))
  }

  /** `SetCode`: code of the current frame's account. */
  function SetCodeTx(t: Tx, p: Prims, val: seq<DEPByte>, valBytes: seq<Byte>, initcodeHash: Hash): (r: Result<Tx>)
    ensures r.Ok? <==> CurFrame(t).Ok?
    ensures r.Ok? ==> |r.value.states| == |t.states|
  {
    match CurFrame(t)
    case Fail(m) => Fail(m)
    case Ok(f) =>
      var s := t.states[|t.states| - 1];
      Ok(WithCur(t, s.(overlay := WriteCode(s.overlay, p, f.addr, f.codeAddr, val, valBytes, initcodeHash))))
  }

  /** `AddLog`: a log recorded in the current state, tagged with the current frame's context. */
  function AddLogTx(t: Tx, data: Formula, topics: seq<Formula>): (r: Result<Tx>)
    ensures r.Ok? <==> CurFrame(t).Ok?
    ensures r.Ok? ==> var f := CurFrame(t).value; var n := |t.states|;
      |r.value.states| == n && r.value.states[..n - 1] == t.states[..n - 1]
      && r.value.states[n - 1] == t.states[n - 1].(logs := t.states[n - 1].logs + [Log(f.addr, f.addrVersion, f.codeAddr, data, topics)])
  {
    match CurFrame(t)
    case Fail(m) => Fail(m)
    case Ok(f) =>
      var s := t.states[|t.states| - 1];
      Ok(WithCur(t, s.(logs := s.logs + [Log(f.addr, f.addrVersion, f.codeAddr, data, topics)])))
  }

  /**
   * The current frame replaced; this is how the model writes through the
   * `Stack()` and `Memory()` pointers the handlers mutate.
   */
  function UpdateFrameTx(t: Tx, f: StackedElement): (r: Result<Tx>)
    ensures r.Ok? <==> CurFrame(t).Ok?
    ensures r.Ok? ==> CurFrame(r.value) == Ok(f) && |r.value.states| == |t.states|
  {
    match CurFrame(t)
    case Fail(m) => Fail(m)
    case Ok(_) =>
      var s := t.states[|t.states| - 1];
      Ok(WithCur(t, s.(frames := s.frames[|s.frames| - 1 := f])))
  }

  // ---- what the transitions promise together ----

  /** A revert right after a call gives back the states from before the call. */
  lemma CallThenRevert(t: Tx, b: Base, addr: Address, codeAddr: Address, calldata: seq<DEPByte>, rd: seq<DEPByte>)
    requires |b.codes| < U64_LIMIT && CallTx(t, b, addr, codeAddr, calldata).Ok?
    ensures RevertTx(CallTx(t, b, addr, codeAddr, calldata).value, rd) == Ok(Tx(t.states, rd))
  {
    var t1 := CallTx(t, b, addr, codeAddr, calldata).value;
    assert t1.states[..|t.states|] == t.states;
  }

  /**
   * A return right after a call succeeds and leaves as many states as
   * before, the outer ones untouched, and the current one with the frames
   * and logs it had before the call and the overlay of the callee's copy.
   */
  lemma CallThenReturn(t: Tx, p: Prims, b: Base, addr: Address, codeAddr: Address, calldata: seq<DEPByte>,
                       rd: seq<DEPByte>, rdBytes: seq<Byte>)
    requires |b.codes| < U64_LIMIT && CallTx(t, b, addr, codeAddr, calldata).Ok?
    ensures var t1 := CallTx(t, b, addr, codeAddr, calldata).value; var t2 := ReturnTx(t1, p, rd, rdBytes);
      var n := |t.states|;
      && t2.Ok? && |t2.value.states| == n && t2.value.states[..n - 1] == t.states[..n - 1]
      && t2.value.states[n - 1].frames == t.states[n - 1].frames
      && t2.value.states[n - 1].logs == t.states[n - 1].logs
      && t2.value.states[n - 1].overlay == t1.states[n].overlay
      && t2.value.returndata == rd
  {
    var t1 := CallTx(t, b, addr, codeAddr, calldata).value;
    var n := |t.states|;
    assert t1.states[..n] == t.states;
    assert t1.states[..n - 1] == t.states[..n - 1];
    var s := t1.states[n];
    assert CurFrame(t1) == Ok(s.frames[|s.frames| - 1]);
    assert !s.frames[|s.frames| - 1].isCreate;
  }

  /**
   * With the copy as written, the same call and return leave every frame
   * of the caller with a zero init-code hash: the caller's frames come
   * back from the copy the callee ran on.
   */
  lemma CallThenReturnAsWritten(t: Tx, p: Prims, b: Base, addr: Address, codeAddr: Address, calldata: seq<DEPByte>,
                                rd: seq<DEPByte>, rdBytes: seq<Byte>)
    requires |b.codes| < U64_LIMIT && CallTxAsWritten(t, b, addr, codeAddr, calldata).Ok?
    ensures var t2 := ReturnTx(CallTxAsWritten(t, b, addr, codeAddr, calldata).value, p, rd, rdBytes);
      var n := |t.states|; var fs := t.states[n - 1].frames;
      && t2.Ok? && |t2.value.states[n - 1].frames| == |fs|
      && (forall i :: 0 <= i < |fs| ==> t2.value.states[n - 1].frames[i] == fs[i].(initcodeHash := ZERO_HASH))
      && ((exists i :: 0 <= i < |fs| && fs[i].initcodeHash != ZERO_HASH) ==> t2.value.states[n - 1].frames != fs)
  {
    var t1 := CallTxAsWritten(t, b, addr, codeAddr, calldata).value;
    var n := |t.states|;
    var s := t1.states[n];
    assert CurFrame(t1) == Ok(s.frames[|s.frames| - 1]);
    var t2 := ReturnTx(t1, p, rd, rdBytes).value;
    var fs := t.states[n - 1].frames;
    assert t2.states[n - 1].frames == s.frames[..|fs|];
    if exists i :: 0 <= i < |fs| && fs[i].initcodeHash != ZERO_HASH {
      var i :| 0 <= i < |fs| && fs[i].initcodeHash != ZERO_HASH;
      assert t2.states[n - 1].frames[i].initcodeHash == ZERO_HASH;
    }
  }

  /**
   * A create followed by its return stores the returned bytes as the new
   * account's code, with the SHA-256 of the init code as its init-code
   * hash, marks the account created, and leaves no return data.
   */
  lemma CreateThenReturn(t: Tx, p: Prims, b: Base, addr: Address, codeAddr: Address, initcode: seq<DEPByte>,
                         initcodeBin: seq<Byte>, code: seq<DEPByte>, codeBytes: seq<Byte>)
    requires CreateTx(t, p, b, addr, codeAddr, initcode, initcodeBin).Ok?
    ensures var t2 := ReturnTx(CreateTx(t, p, b, addr, codeAddr, initcode, initcodeBin).value, p, code, codeBytes);
      var o := t2.value.states[|t.states| - 1].overlay;
      && t2.Ok? && |t2.value.states| == |t.states| && t2.value.returndata == []
      && addr in o.codes && o.codes[addr] == OverlayCode(code, codeAddr, p.sha256(codeBytes), p.sha256(initcodeBin))
      && addr in o.updatedCodes && IsCreated(o, addr)
  {
    var t1 := CreateTx(t, p, b, addr, codeAddr, initcode, initcodeBin).value;
    var s := t1.states[|t.states|];
    assert CurFrame(t1) == Ok(s.frames[|s.frames| - 1]);
  }

  /** A log added inside a call is dropped by a revert and kept by a return. */
  lemma LogsOfCall(t: Tx, p: Prims, b: Base, addr: Address, codeAddr: Address, calldata: seq<DEPByte>,
                   data: Formula, topics: seq<Formula>, rd: seq<DEPByte>, rdBytes: seq<Byte>)
    requires |b.codes| < U64_LIMIT && CallTx(t, b, addr, codeAddr, calldata).Ok?
    ensures var t1 := CallTx(t, b, addr, codeAddr, calldata).value; var f := CurFrame(t1).value;
      var t2 := AddLogTx(t1, data, topics).value; var n := |t.states|;
      && f.addr == addr && f.codeAddr == codeAddr
      && RevertTx(t2, rd).value.states[n - 1].logs == t.states[n - 1].logs
      && ReturnTx(t2, p, rd, rdBytes).Ok?
      && ReturnTx(t2, p, rd, rdBytes).value.states[n - 1].logs ==
           t.states[n - 1].logs + [Log(addr, f.addrVersion, codeAddr, data, topics)]
  {
    var t1 := CallTx(t, b, addr, codeAddr, calldata).value;
    var n := |t.states|;
    assert t1.states[..n] == t.states;
    var s := t1.states[n];
    assert CurFrame(t1) == Ok(s.frames[|s.frames| - 1]);
    var t2 := AddLogTx(t1, data, topics).value;
    assert t2.states[..n] == t.states;
    assert t2.states[n - 1] == t.states[n - 1];
    assert CurFrame(t2) == CurFrame(t1);
  }

  /** A slot the current frame writes reads back as written, whatever the stores hold. */
  lemma SlotSetThenGetTx(t: Tx, p: Prims, b: Base, slot: Word, val: seq<DEPByte>)
    requires SetSlotTx(t, slot, val).Ok?
    ensures GetSlotTx(SetSlotTx(t, slot, val).value, p, b, slot).Ok?
    ensures GetSlotTx(SetSlotTx(t, slot, val).value, p, b, slot).value.value == val
  {
    var t1 := SetSlotTx(t, slot, val).value;
    var f := CurFrame(t).value;
    var s := t.states[|t.states| - 1];
    assert CurFrame(t1) == Ok(f);
    SlotSetThenGet(s.overlay, p, b, f.addr, f.codeAddr, slot, val);
  }

  // ---- the object ----

  class TransactionDB {
    const db: SimpleDB
    var states: seq<TxState>
    var returndata: seq<DEPByte>

    function Value(): Tx
      reads this
    {
      Tx(states, returndata)
    }

    function BaseOf(): Base
      reads db`versionsDB, db`slotsDB, db`codeHashesDB, db`codesDB
    {
      Base(db.versionsDB, db.slotsDB, db.codeHashesDB, db.codesDB)
    }

    /** `new(TransactionDB)`: no states yet. */
    constructor (db: SimpleDB)
      ensures this.db == db && states == [] && returndata == []
    {
      this.db := db;
      states := [];
      returndata := [];
    }

    /**
     * `TransactionDBCall`: the outer state for `addr`, the calldata as a
     * constant formula, and a call into `addr` with it.
     */
    static method NewCall(db: SimpleDB, addr: Address, codeAddr: Address, calldataBin: seq<Byte>)
      returns (ok: bool, t: TransactionDB)
      requires db.Valid() && |db.codesDB| < U64_LIMIT
      modifies db`formulasWithShorts, db`formulas, db.shorts, db.logger`written
      ensures db.Valid() && fresh(t) && t.db == db
      ensures ok ==> |t.states| == 2 && |t.states[0].frames| == 1 && |t.states[1].frames| == 2
      ensures ok ==> t.states[0].overlay.transient == None && t.states[1].overlay.transient.Some?
      ensures ok ==> t.states[0].frames[0].addr == addr && t.states[0].frames[0].codeAddr == codeAddr
                     && !t.states[0].frames[0].isCreate
      ensures ok ==> var f := t.states[1].frames[1];
        !f.isCreate && f.addr == addr && f.codeAddr == addr
        && var c := Formulas.ConstantNew(db.p, OP_CALL_DATA, calldataBin); |c.result| < U64_LIMIT && f.calldata == FormulaBytes(c)
      ensures ok ==> t.returndata == []
    {
      t := new TransactionDB(db);
      var s := StateNew(t.BaseOf(), false, addr, codeAddr);
      if s.Fail? {
        return false, t;
      }
      t.states := [s.value];
      var c := db.ConstantNewWithShorts(OP_CALL_DATA, calldataBin);
      if c.Fail? || |c.value.result| >= U64_LIMIT {
        return false, t;
      }
      var calldata := FormulaDEPBytes(c.value);
      assert t.states == [s.value] && |db.codesDB| < U64_LIMIT;
      ok := t.Call(addr, addr, calldata);
    }

    /**
     * `TransactionDBCreate`: the outer state, a create state for `addr`,
     * and the init code as a constant formula.
     */
    static method NewCreate(db: SimpleDB, addr: Address, codeAddr: Address, initcodeBin: seq<Byte>)
      returns (ok: bool, t: TransactionDB)
      requires db.Valid()
      modifies db`formulasWithShorts, db`formulas, db.shorts, db.logger`written
      ensures db.Valid() && fresh(t) && t.db == db
      ensures ok ==> |t.states| == 2 && |t.states[0].frames| == 1 && |t.states[1].frames| == 2
      ensures ok ==> t.states[0].frames[0].isCreate
      ensures ok ==> var f := t.states[1].frames[1];
        f.isCreate && f.addr == addr && f.codeAddr == codeAddr && f.calldata == []
        && (var c := Formulas.ConstantNew(db.p, OP_INIT_CODE, initcodeBin); |c.result| < U64_LIMIT && f.code == FormulaBytes(c))
        && f.codeHash == db.p.sha256(initcodeBin) && f.initcodeHash == db.p.sha256(initcodeBin)
      ensures ok ==> t.returndata == []
    {
      t := new TransactionDB(db);
      var s := StateNew(t.BaseOf(), true, addr, codeAddr);
      if s.Fail? {
        return false, t;
      }
      t.states := [s.value];
      var c := db.ConstantNewWithShorts(OP_INIT_CODE, initcodeBin);
      if c.Fail? || |c.value.result| >= U64_LIMIT {
        return false, t;
      }
      var initcode := FormulaDEPBytes(c.value);
      ok := t.Create(addr, codeAddr, initcode, initcodeBin);
    }

    method Call(addr: Address, codeAddr: Address, calldata: seq<DEPByte>) returns (ok: bool)
      requires |db.codesDB| < U64_LIMIT
      modifies this
      ensures var r := CallTx(old(Value()), BaseOf(), addr, codeAddr, calldata);
        (ok <==> r.Ok?) && (ok ==> Value() == r.value)
      ensures old(|states|) > 0 && ok ==> states[|states| - 1].overlay.transient.Some?
      ensures ok ==> |states| == old(|states|) + 1 && states[..old(|states|)] == old(states)
      ensures ok ==> var s := states[|states| - 1]; var f := s.frames[|s.frames| - 1];
        |s.frames| == old(|states[|states| - 1].frames|) + 1 && !f.isCreate && f.addr == addr && f.codeAddr == codeAddr && f.calldata == calldata
    {
      if |states| == 0 {
        return false;
      }
      var dup := StateCopy(states[|states| - 1]);
      var v := ReadVersion(dup.overlay, BaseOf(), addr);
      if v.Fail? {
        return false;
      }
      var c := ReadCode(v.value.o, BaseOf(), codeAddr);
      if c.Fail? {
        return false;
      }
      var frame := StackedElementNew(false, addr, v.value.value, codeAddr, calldata, c.value.value.data,
                                     c.value.value.codeHash, c.value.value.initcodeHash);
      states := states + [TxState(c.value.o, dup.frames + [frame], dup.logs)];
      returndata := [];
      ok := true;
    }

    method Create(addr: Address, codeAddr: Address, initcode: seq<DEPByte>, initcodeBin: seq<Byte>) returns (ok: bool)
      modifies this
      ensures var r := CreateTx(old(Value()), db.p, BaseOf(), addr, codeAddr, initcode, initcodeBin);
        (ok <==> r.Ok?) && (ok ==> Value() == r.value)
      ensures ok ==> |states| == old(|states|) + 1 && |states[|states| - 1].frames| == old(|states[|states| - 1].frames|) + 1
    {
      if |states| == 0 {
        return false;
      }
      var dup := StateCopy(states[|states| - 1]);
      var codeHash := db.p.sha256(initcodeBin);
      var v := ReadVersion(dup.overlay, BaseOf(), addr);
      if v.Fail? {
        return false;
      }
      var frame := StackedElementNew(true, addr, v.value.value, codeAddr, [], initcode, codeHash, codeHash);
      states := states + [TxState(v.value.o, dup.frames + [frame], dup.logs)];
      returndata := [];
      ok := true;
    }

    method Revert(rd: seq<DEPByte>) returns (ok: bool)
      modifies this
      ensures var r := RevertTx(old(Value()), rd); (ok <==> r.Ok?) && (ok ==> Value() == r.value)
    {
      var popped := PopState();
      if popped.Fail? {
        return false;
      }
      returndata := rd;
      ok := true;
    }

    method Return(rd: seq<DEPByte>, rdBytes: seq<Byte>) returns (ok: bool)
      modifies this
      ensures var r := ReturnTx(old(Value()), db.p, rd, rdBytes); (ok <==> r.Ok?) && (ok ==> Value() == r.value)
    {
      var f := Cur();
      if f.Fail? {
        return false;
      }
      var data := rd;
      if f.value.isCreate {
        ok := SetCode(rd, rdBytes, f.value.codeHash);
        data := [];
      }
      var child := PopState();
      if |states| == 0 {
        return false;
      }
      var s := child.value;
      states := states[|states| - 1 := TxState(s.overlay, s.frames[..|s.frames| - 1], s.logs)];
      returndata := data;
      ok := true;
    }

    method Selfdestruct() returns (ok: bool)
      modifies this
      ensures var r := SelfdestructTx(old(Value()), db.p); (ok <==> r.Ok?) && (ok ==> Value() == r.value)
    {
      var f := Cur();
      if f.Fail? {
        return false;
      }
      var s := states[|states| - 1];
      states := states[|states| - 1 := s.(overlay := Destructed(s.overlay, f.value.addr))];
      ok := Return([], []);
    }

    method Created(addr: Address) returns (r: Result<bool>)
      ensures r.Ok? <==> |states| > 0
      ensures r.Ok? ==> r.value == IsCreated(states[|states| - 1].overlay, addr)
    {
      if |states| == 0 {
        return Fail("index out of range");
      }
      r := Ok(addr in states[|states| - 1].overlay.created);
    }

    method Cur() returns (r: Result<StackedElement>)
      ensures r == CurFrame(Value())
    {
      if |states| == 0 {
        return Fail("index out of range");
      }
      var frames := states[|states| - 1].frames;
      if |frames| == 0 {
        return Fail("no elements in stacked");
      }
      r := Ok(frames[|frames| - 1]);
    }

    /** `popState`: the current state removed and returned. */
    method PopState() returns (r: Result<TxState>)
      modifies this`states
      ensures r == CurState(old(Value()))
      ensures r.Ok? ==> states == old(states)[..|old(states)| - 1]
      ensures r.Fail? ==> states == old(states)
    {
      if |states| == 0 {
        return Fail("index out of range");
      }
      r := Ok(states[|states| - 1]);
      states := states[..|states| - 1];
    }

    method GetAddressVersion(addr: Address) returns (r: Result<U64>)
      modifies this`states
      ensures var s := GetAddressVersionTx(old(Value()), BaseOf(), addr);
        (r.Ok? <==> s.Ok?) && (r.Ok? ==> r.value == s.value.value && Value() == s.value.t)
    {
      if |states| == 0 {
        return Fail("index out of range");
      }
      var s := states[|states| - 1];
      var v := ReadVersion(s.overlay, BaseOf(), addr);
      if v.Fail? {
        return Fail(v.msg);
      }
      states := states[|states| - 1 := s.(overlay := v.value.o)];
      r := Ok(v.value.value);
    }

    method GetSlot(slot: Word) returns (r: Result<seq<DEPByte>>)
      modifies this`states
      ensures var s := GetSlotTx(old(Value()), db.p, BaseOf(), slot);
        (r.Ok? <==> s.Ok?) && (r.Ok? ==> r.value == s.value.value && Value() == s.value.t)
    {
      var f := Cur();
      if f.Fail? {
        return Fail(f.msg);
      }
      var s := states[|states| - 1];
      var v := ReadSlot(s.overlay, db.p, BaseOf(), f.value.addr, slot);
      if v.Fail? {
        return Fail(v.msg);
      }
      states := states[|states| - 1 := s.(overlay := v.value.o)];
      r := Ok(v.value.value.data);
    }

    method SetSlot(slot: Word, val: seq<DEPByte>) returns (ok: bool)
      modifies this`states
      ensures var r := SetSlotTx(old(Value()), slot, val); (ok <==> r.Ok?) && (ok ==> Value() == r.value)
    {
      var f := Cur();
      if f.Fail? {
        return false;
      }
      var s := states[|states| - 1];
      states := states[|states| - 1 := s.(overlay := WriteSlot(s.overlay, f.value.addr, f.value.codeAddr, slot, val))];
      ok := true;
    }

    method GetTransient(slot: Word) returns (r: Result<seq<DEPByte>>)
      modifies this`states
      ensures var s := GetTransientTx(old(Value()), db.p, slot);
        (r.Ok? <==> s.Ok?) && (r.Ok? ==> r.value == s.value.value && Value() == s.value.t)
    {
      var f := Cur();
      if f.Fail? {
        return Fail(f.msg);
      }
      var s := states[|states| - 1];
      var v := ReadTransient(s.overlay, db.p, f.value.addr, slot);
      if v.Fail? {
        return Fail(v.msg);
      }
      states := states[|states| - 1 := s.(overlay := v.value.o)];
      r := Ok(v.value.value);
    }

    method SetTransient(slot: Word, val: seq<DEPByte>) returns (ok: bool)
      modifies this`states
      ensures var r := SetTransientTx(old(Value()), slot, val); (ok <==> r.Ok?) && (ok ==> Value() == r.value)
    {
      var f := Cur();
      if f.Fail? {
        return false;
      }
      var s := states[|states| - 1];
      var o := WriteTransient(s.overlay, f.value.addr, slot, val);
      if o.Fail? {
        return false;
      }
      states := states[|states| - 1 := s.(overlay := o.value)];
      ok := true;
    }

    method GetCode(addr: Address) returns (r: Result<OverlayCode>)
      requires |db.codesDB| < U64_LIMIT
      modifies this`states
      ensures var s := GetCodeTx(old(Value()), BaseOf(), addr);
        (r.Ok? <==> s.Ok?) && (r.Ok? ==> r.value == s.value.value && Value() == s.value.t)
    {
      if |states| == 0 {
        return Fail("index out of range");
      }
      var s := states[|states| - 1];
      var c := ReadCode(s.overlay, BaseOf(), addr);
      if c.Fail? {
        return Fail(c.msg);
      }
      states := states[|states| - 1 := s.(overlay := c.value.o)];
      r := Ok(c.value.value);
    }

    method SetCode(val: seq<DEPByte>, valBytes: seq<Byte>, initcodeHash: Hash) returns (ok: bool)
      modifies this`states
      ensures var r := SetCodeTx(old(Value()), db.p, val, valBytes, initcodeHash);
        (ok <==> r.Ok?) && (ok ==> Value() == r.value) && (!ok ==> Value() == old(Value()))
    {
      var f := Cur();
      if f.Fail? {
        return false;
      }
      var s := states[|states| - 1];
      states := states[|states| - 1 := s.(overlay := WriteCode(s.overlay, db.p, f.value.addr, f.value.codeAddr, val, valBytes, initcodeHash))];
      ok := true;
    }

    method AddLog(data: Formula, topics: seq<Formula>) returns (ok: bool)
      modifies this`states
      ensures var r := AddLogTx(old(Value()), data, topics); (ok <==> r.Ok?) && (ok ==> Value() == r.value)
    {
      var f := Cur();
      if f.Fail? {
        return false;
      }
      var s := states[|states| - 1];
      states := states[|states| - 1 := s.(logs := s.logs + [Log(f.value.addr, f.value.addrVersion, f.value.codeAddr, data, topics)])];
      ok := true;
    }

    /** Writes through `Stack()` and `Memory()`: the current frame replaced. */
    method UpdateFrame(f: StackedElement) returns (ok: bool)
      modifies this`states
      ensures var r := UpdateFrameTx(old(Value()), f); (ok <==> r.Ok?) && (ok ==> Value() == r.value)
    {
      var cur := Cur();
      if cur.Fail? {
        return false;
      }
      var s := states[|states| - 1];
      states := states[|states| - 1 := s.(frames := s.frames[|s.frames| - 1 := f])];
      ok := true;
    }

    /**
     * `Commit`: the return data of a call is logged, then the current
     * state's logs, then its overlay is committed, the formulas of its logs
     * and of the return data are committed, and the formula caches are reset.
     */
    method Commit() returns (ok: bool)
      requires db.Valid()
      modifies this`states
      modifies db`formulasWithShorts, db`formulas, db`formulasDB, db.shorts, db.logger`written
      modifies db`slotsDB, db`codesDB, db`codeHashesDB, db`versionsDB
      ensures db.Valid()
      ensures ok ==> |old(states)| > 0
      ensures ok ==> Committed(old(states[|states| - 1]).overlay, db.p, old(BaseOf()), BaseOf(), true)
      ensures ok ==> db.formulas == map[] && db.formulasWithShorts == map[]
    {
      var f := Cur();
      if f.Fail? {
        return false;
      }
      var s := states[|states| - 1];
      var cur;
      ok, cur := CommitState(db, f.value, s, returndata);
      if ok {
        states := states[|states| - 1 := s.(overlay := cur)];
      }
    }
  }

  /** The body of `Commit` on the current frame `f` and state `s`. */
  method CommitState(db: SimpleDB, f: StackedElement, s: TxState, returndata: seq<DEPByte>) returns (ok: bool, cur: Overlay)
    requires db.Valid()
    modifies db`formulasWithShorts, db`formulas, db`formulasDB, db.shorts, db.logger`written
    modifies db`slotsDB, db`codesDB, db`codeHashesDB, db`versionsDB
    ensures db.Valid()
    ensures ok ==> Committed(s.overlay, db.p, old(Base(db.versionsDB, db.slotsDB, db.codeHashesDB, db.codesDB)),
                             Base(db.versionsDB, db.slotsDB, db.codeHashesDB, db.codesDB), true)
    ensures ok ==> db.formulas == map[] && db.formulasWithShorts == map[]
  {
    cur := s.overlay;
    if !f.isCreate {
      var logged, lf, outputs, before, sfs := db.LogValue(ReturnData, f.addr, f.addrVersion, f.codeAddr, returndata);
      if !logged {
        return false, cur;
      }
    }
    ok := LogLogs(db, s.logs);
    if !ok {
      return;
    }
    ok, cur := CommitOverlay(s.overlay, db);
    if !ok {
      return;
    }
    ok := FinishCommit(db, s.logs, returndata);
  }

  /** The formulas of the logs and of the return data committed, then the caches reset. */
  method FinishCommit(db: SimpleDB, logs: seq<Log>, returndata: seq<DEPByte>) returns (ok: bool)
    requires db.Valid()
    modifies db`formulasWithShorts, db`formulas, db`formulasDB, db.shorts
    ensures db.Valid()
    ensures ok ==> db.formulas == map[] && db.formulasWithShorts == map[]
    ensures ok ==> old(db.formulasDB).Keys <= db.formulasDB.Keys
    ensures ok ==> forall h :: h in LogHashes(logs) + ChangedFormulas(returndata) && h in Uncommitted(old(db.formulasWithShorts))
                     ==> h in db.formulasDB
    ensures !AllCached(old(db.formulasWithShorts), LogHashes(logs) + ChangedFormulas(returndata)) ==> !ok
  {
    ghost var c0 := db.formulasWithShorts;
    ok := CommitLogs(db, logs);
    if !ok {
      return;
    }
    ghost var c1 := db.formulasWithShorts;
    ghost var f1 := db.formulas;
    ghost var db1 := db.formulasDB;
    ok := db.CommitDEPBytesWithShorts(returndata);
    if !ok {
      return;
    }
    CommitProgressTrans(c0, c1, db.formulasWithShorts, old(db.formulas), f1, db.formulas, old(db.formulasDB), db1, db.formulasDB);
    AllCommittedKeep(c1, db.formulasWithShorts, LogHashes(logs), ChangedFormulas(returndata));
    db.ResetFormulas();
  }

  /** The hashes `CommitLogs` commits, in order: each log's data formula, then its topics. */
  function LogHashes(logs: seq<Log>): seq<Hash>
  {
    if |logs| == 0 then []
    else
      var n := |logs| - 1;
      LogHashes(logs[..n]) + [logs[n].data.hash] + HashesOf(logs[n].topics)
  }

  /** The `LogLog` loop of `Commit`, in the order the logs were added. */
  method LogLogs(db: SimpleDB, logs: seq<Log>) returns (ok: bool)
    requires db.Valid()
    modifies db`formulas, db.shorts, db.logger`written
    ensures db.Valid()
  {
    for i := 0 to |logs|
      invariant db.Valid()
    {
      var logged, outputs, sfs := db.LogLog(logs[i]);
      if !logged {
        return false;
      }
    }
    ok := true;
  }

  /**
   * `CommitLogs`: each log's data formula, then its topics, committed; a
   * formula missing from the with-shorts cache fails.
   */
  method CommitLogs(db: SimpleDB, logs: seq<Log>) returns (ok: bool)
    requires db.Valid()
    modifies db`formulasWithShorts, db`formulas, db`formulasDB, db.shorts
    ensures db.Valid()
    ensures ok ==> CommitProgress(old(db.formulasWithShorts), db.formulasWithShorts, old(db.formulas), db.formulas,
                                  old(db.formulasDB), db.formulasDB)
    ensures ok ==> db.Mappings() == old(db.Mappings())
    ensures ok ==> AllMappingsSaved(db.Mappings(), old(db.MappingDBs()), db.MappingDBs(),
                                    Uncommitted(old(db.formulasWithShorts)) - Uncommitted(db.formulasWithShorts))
    ensures ok ==> AllCommitted(db.formulasWithShorts, LogHashes(logs))
    ensures !AllCached(old(db.formulasWithShorts), LogHashes(logs)) ==> !ok
  {
    ghost var c0 := db.formulasWithShorts;
    ghost var ms0 := db.Mappings();
    ghost var dbs0 := db.MappingDBs();
    for i := 0 to |logs|
      invariant db.Valid()
      invariant CommitProgress(c0, db.formulasWithShorts, old(db.formulas), db.formulas, old(db.formulasDB), db.formulasDB)
      invariant db.Mappings() == ms0 && AllMappingsSaved(ms0, dbs0, db.MappingDBs(), Uncommitted(c0) - Uncommitted(db.formulasWithShorts))
      invariant AllCommitted(db.formulasWithShorts, LogHashes(logs[..i]))
    {
      assert logs[..i + 1][..i] == logs[..i];
      ok := db.CommitChangeWithShorts(logs[i].data.hash, LogHashes(logs[..i]), c0, old(db.formulas), old(db.formulasDB), ms0, dbs0);
      if !ok {
        return;
      }
      ok := CommitTopics(db, logs[i].topics, LogHashes(logs[..i]) + [logs[i].data.hash],
                         c0, old(db.formulas), old(db.formulasDB), ms0, dbs0);
      if !ok {
        return;
      }
    }
    assert logs[..|logs|] == logs;
    ok := true;
  }

  /** The topic loop of `CommitLogs`, extending what was committed since `c0`. */
  method CommitTopics(db: SimpleDB, topics: seq<Formula>, ghost done: seq<Hash>, ghost c0: Cache, ghost f0: Cache,
                      ghost db0: KV, ghost ms0: seq<map<Hash, HashAndProtected>>, ghost dbs0: seq<KV>) returns (ok: bool)
    requires db.Valid() && AllCommitted(db.formulasWithShorts, done)
    requires CommitProgress(c0, db.formulasWithShorts, f0, db.formulas, db0, db.formulasDB)
    requires db.Mappings() == ms0 && AllMappingsSaved(ms0, dbs0, db.MappingDBs(), Uncommitted(c0) - Uncommitted(db.formulasWithShorts))
    modifies db`formulasWithShorts, db`formulas, db`formulasDB, db.shorts
    ensures db.Valid()
    ensures ok ==> CommitProgress(c0, db.formulasWithShorts, f0, db.formulas, db0, db.formulasDB)
    ensures ok ==> db.Mappings() == ms0 && AllMappingsSaved(ms0, dbs0, db.MappingDBs(), Uncommitted(c0) - Uncommitted(db.formulasWithShorts))
    ensures ok ==> AllCommitted(db.formulasWithShorts, done + HashesOf(topics))
  {
    for i := 0 to |topics|
      invariant db.Valid()
      invariant CommitProgress(c0, db.formulasWithShorts, f0, db.formulas, db0, db.formulasDB)
      invariant db.Mappings() == ms0 && AllMappingsSaved(ms0, dbs0, db.MappingDBs(), Uncommitted(c0) - Uncommitted(db.formulasWithShorts))
      invariant AllCommitted(db.formulasWithShorts, done + HashesOf(topics[..i]))
    {
      assert HashesOf(topics[..i + 1]) == HashesOf(topics[..i]) + [topics[i].hash];
      ok := db.CommitChangeWithShorts(topics[i].hash, done + HashesOf(topics[..i]), c0, f0, db0, ms0, dbs0);
      if !ok {
        return;
      }
      assert done + HashesOf(topics[..i]) + [topics[i].hash] == done + HashesOf(topics[..i + 1]);
    }
    assert topics[..|topics|] == topics;
    ok := true;
  }
}
