// The older revm inspector of tracer/extra/mod_foundry.rs: no activation
// gate and no singleton check, the transaction's own address reported for
// every frame, the transaction started instead of the first frame entered
// and ended instead of the last frame left, a deadbeef transaction hash, no
// faults.  Its statics are the two prefetch cells; the calls it makes into
// the C library are appended to `calls`.
module FoundryTracer {
  import opened Common
  import opened Opcodes
  import opened CTypes
  import opened RustBridge
  import CryptoHelpers

  /** The configuration `DepData::default` passes: in-memory store, output to the local HTTP collector. */
  const FOUNDRY_CONFIG := InitConfig("amnesia", "", [0xe0, 0xe1], [],
                                     true, false, false, false, false, false, false, false, true,
                                     false, false, false, "", "http://0.0.0.0:4334", true)

  /** `DepData`: the frame depth. */
  datatype DepData = DepData(callDepth: int)

  /** `DepData::default`: the library is initialised and both callbacks are registered, every time. */
  const DEFAULT_CALLS := [CInitDep(FOUNDRY_CONFIG, false), CRegisterGetNonce, CRegisterGetCode]

  /**
   * The address `on_enter` reports, whatever frame is entered: for a create
   * the address the transaction's sender and nonce give (a missing nonce
   * panics), otherwise the transaction's call target (a creating
   * transaction panics).
   */
  function EnterAddress(ctx: Context, isCreate: bool): Result<Address>
  {
    if isCreate then
      if ctx.txNonce.None? then Fail("nonce is missing")
      else
        var created: Address := ctx.keccak(CryptoHelpers.CreateEncoding(ctx.caller, ctx.txNonce.value))[12..];
        Ok(created)
    else if ctx.callTarget.None? then Fail("impossible create")
    else Ok(ctx.callTarget.value)
  }

  /**
   * The `StartTransactionRecording` of the frame at depth 0: as in the newer
   * revision, but with the deadbeef transaction hash.
   */
  function StartOf(ctx: Context, isCreate: bool, addr: Address): Result<CCall>
  {
    var code := if isCreate then Ok([]) else ctx.code(addr);
    if code.Fail? then Fail("context.code(addr) failed")
    else if ctx.block >= U64_LIMIT || ctx.timestamp >= U64_LIMIT then Fail("integer does not fit in u64")
    else Ok(CStart(isCreate, CAddress(addr), ToCSizedArray(ctx.txData), ctx.block, ctx.timestamp,
                   CAddress(ctx.caller), CHash(DEADBEEF), ToCSizedArray(code.value), ctx.cancun, ctx.prevrandao))
  }

  /** `on_enter`: the transaction starts at depth 0, a deeper frame is entered; the depth grows by one. */
  function EnterOf(d: DepData, ctx: Context, isCreate: bool, input: seq<Byte>): Result<(DepData, seq<CCall>)>
  {
    match EnterAddress(ctx, isCreate)
    case Fail(e) => Fail(e)
    case Ok(addr) =>
      var deeper := DepData(d.callDepth + 1);
      if d.callDepth != 0 then Ok((deeper, [CEnter(CAddress(addr), ToCSizedArray(input))]))
      else match StartOf(ctx, isCreate, addr)
        case Fail(e) => Fail(e)
        case Ok(start) => Ok((deeper, [start]))
  }

  /** `on_exit`: the depth drops by one; at zero the transaction ends, otherwise the frame is left without an error. */
  function ExitOf(d: DepData, output: seq<Byte>): (DepData, seq<CCall>)
  {
    var shallower := DepData(d.callDepth - 1);
    (shallower, if shallower.callDepth == 0 then [CEnd] else [CExit(ToCSizedArray(output), false)])
  }

  /** `dep_step`: the cells are armed and the instruction goes to the library. */
  function StepOf(cells: Cells, f: Frame, ctx: Context): Result<(Cells, seq<CCall>)>
  {
    match Arm(cells, ctx.known(f.op), f.op, f.stack, f.target, ctx)
    case Fail(e) => Fail(e)
    case Ok(armed) =>
      Ok((armed, [COpcode(CStackOf(f.stack), ToCSizedArray(f.memory), CAddress(f.target), f.pc, f.op, !ctx.known(f.op), ctx.error)]))
  }

  /**
   * Every frame is reported with the transaction's address, not its own:
   * a nested frame is entered with `EnterAddress`, and a nested call inside
   * a creating transaction panics.
   */
  lemma TransactionAddress(d: DepData, ctx: Context, isCreate: bool, input: seq<Byte>)
    ensures !isCreate && ctx.callTarget.None? ==> EnterOf(d, ctx, isCreate, input).Fail?
    ensures d.callDepth != 0 && EnterOf(d, ctx, isCreate, input).Ok? ==>
      EnterAddress(ctx, isCreate).Ok? &&
      EnterOf(d, ctx, isCreate, input).value == (DepData(d.callDepth + 1), [CEnter(CAddress(EnterAddress(ctx, isCreate).value), ToCSizedArray(input))])
  {
  }

  /**
   * As written, `get_code` of this revision also takes a cell holding the
   * zero address for an empty one: once `dep_step` arms the code cell for a
   * `CALL` to the zero account, the Go side's lookup panics, where the
   * cell `Bridge.GetCode` takes serves it.
   */
  lemma ZeroCalleePanicsAsWritten(cells: Cells, f: Frame, ctx: Context, gas: Word, rest: seq<Word>)
    requires f.op == CALL && f.stack == rest + [0, gas] && ctx.known(CALL) && ctx.code(ZERO_ADDRESS).Ok?
    ensures StepOf(cells, f, ctx).Ok?
    ensures var c := StepOf(cells, f, ctx).value.0.code;
      && c == Cell(Some(ZERO_ADDRESS), ctx.code(ZERO_ADDRESS).value)
      && TakeAsWritten(c.armed.value, c.value).Fail?
      && Take(c).Ok?
  {
    WordToAddressOfZero();
  }

  /** There is no gate: every instruction is reported once, invalid exactly when revm cannot decode it. */
  lemma StepReports(cells: Cells, f: Frame, ctx: Context)
    requires StepOf(cells, f, ctx).Ok? && |f.stack| <= INT32_MAX
    ensures var (_, cs) := StepOf(cells, f, ctx).value;
      && |cs| == 1 && cs[0].COpcode? && cs[0].isInvalid == !ctx.known(f.op) && cs[0].hasError == ctx.error
      && Words(cs[0].stack) == f.stack && cs[0].op == f.op && cs[0].addr.data == f.target
  {
    StackCrossesIntact(f.stack);
  }

  // ---- sequences of frames ----

  function EventOf(d: DepData, ctx: Context, e: FrameEvent): Result<(DepData, seq<CCall>)>
  {
    match e
    case EvEnter(isCreate, input, _) => EnterOf(d, ctx, isCreate, input)
    case EvExit(output, _) => Ok(ExitOf(d, output))
  }

  /** The hooks run over the events in order: the final `DepData` and every call made. */
  function Run(d: DepData, ctx: Context, evs: seq<FrameEvent>): Result<(DepData, seq<CCall>)>
  {
    if evs == [] then Ok((d, []))
    else match Run(d, ctx, evs[..|evs| - 1])
      case Fail(e) => Fail(e)
      case Ok((d1, cs1)) =>
        match EventOf(d1, ctx, evs[|evs| - 1])
        case Fail(e) => Fail(e)
        case Ok((d2, cs2)) => Ok((d2, cs1 + cs2))
  }

  /** A step: what it adds to the counts; the frame at depth 0 is started or ended instead of entered or left. */
  lemma EventCounts(d: DepData, ctx: Context, e: FrameEvent)
    requires EventOf(d, ctx, e).Ok?
    ensures var (d2, cs) := EventOf(d, ctx, e).value;
      && d2.callDepth == d.callDepth + (if e.EvEnter? then 1 else -1) && |cs| == 1
      && CountOf(cs, ENTER) == (if e.EvEnter? && d.callDepth != 0 then 1 else 0)
      && CountOf(cs, START) == (if e.EvEnter? && d.callDepth == 0 then 1 else 0)
      && CountOf(cs, EXIT) == (if e.EvExit? && d2.callDepth != 0 then 1 else 0)
      && CountOf(cs, END) == (if e.EvExit? && d2.callDepth == 0 then 1 else 0)
      && (e.EvEnter? && d.callDepth == 0 ==>
            EnterAddress(ctx, e.isCreate).Ok? && cs[0] == StartOf(ctx, e.isCreate, EnterAddress(ctx, e.isCreate).value).value)
      && (e.EvExit? && d2.callDepth == 0 ==> cs[0] == CEnd)
  {
    var (d2, cs) := EventOf(d, ctx, e).value;
    CountOne(cs[0], ENTER); CountOne(cs[0], EXIT); CountOne(cs[0], START); CountOne(cs[0], END);
  }

  lemma {:induction false} RunDepth(d: DepData, ctx: Context, evs: seq<FrameEvent>)
    requires Run(d, ctx, evs).Ok?
    ensures Run(d, ctx, evs).value.0.callDepth == d.callDepth + Depth(evs)
    ensures |Run(d, ctx, evs).value.1| == |evs|
  {
    if evs != [] {
      RunDepth(d, ctx, evs[..|evs| - 1]);
      EventCounts(Run(d, ctx, evs[..|evs| - 1]).value.0, ctx, evs[|evs| - 1]);
    }
  }

  /**
   * Inside one top-level frame: the transaction has started, first, every
   * nested entry and exit has been passed on, and nothing has ended.
   */
  lemma {:induction false} FramePrefix(d: DepData, ctx: Context, evs: seq<FrameEvent>, k: nat)
    requires d.callDepth == 0 && OneFrame(evs) && 0 < k < |evs|
    requires Run(d, ctx, evs[..k]).Ok?
    ensures evs[0].EvEnter? && EnterAddress(ctx, evs[0].isCreate).Ok?
    ensures var (d2, cs) := Run(d, ctx, evs[..k]).value;
      && d2.callDepth == Depth(evs[..k]) > 0
      && StartOf(ctx, evs[0].isCreate, EnterAddress(ctx, evs[0].isCreate).value).Ok?
      && |cs| > 0 && cs[0] == StartOf(ctx, evs[0].isCreate, EnterAddress(ctx, evs[0].isCreate).value).value
      && CountOf(cs, START) == 1 && CountOf(cs, END) == 0
      && CountOf(cs, ENTER) == Enters(evs[..k]) - 1 && CountOf(cs, EXIT) == k - Enters(evs[..k])
  {
    OneFrameEnds(evs);
    RunDepth(d, ctx, evs[..k]);
    var pre := evs[..k][..k - 1];
    assert pre == evs[..k - 1];
    assert evs[..k][k - 1] == evs[k - 1];
    var (d1, cs1) := Run(d, ctx, pre).value;
    EventCounts(d1, ctx, evs[k - 1]);
    var (d2, cs2) := EventOf(d1, ctx, evs[k - 1]).value;
    CountAppend(cs1, cs2, START);
    CountAppend(cs1, cs2, END);
    CountAppend(cs1, cs2, ENTER);
    CountAppend(cs1, cs2, EXIT);
    if k == 1 {
      assert pre == [];
      assert evs[..1] == [evs[0]];
    } else {
      FramePrefix(d, ctx, evs, k - 1);
      RunDepth(d, ctx, pre);
      assert (cs1 + cs2)[0] == cs1[0];
    }
  }

  /**
   * The lifecycle of one transaction: it is started exactly once, first,
   * with the deadbeef hash, and ended exactly once, last; the top-level
   * frame is neither entered nor left, every nested one is; the depth is
   * back to zero.
   */
  lemma Lifecycle(d: DepData, ctx: Context, evs: seq<FrameEvent>)
    requires d.callDepth == 0 && OneFrame(evs)
    requires Run(d, ctx, evs).Ok?
    ensures evs[0].EvEnter? && EnterAddress(ctx, evs[0].isCreate).Ok?
    ensures var (d2, cs) := Run(d, ctx, evs).value;
      && d2 == d && |cs| == |evs|
      && StartOf(ctx, evs[0].isCreate, EnterAddress(ctx, evs[0].isCreate).value).Ok?
      && cs[0] == StartOf(ctx, evs[0].isCreate, EnterAddress(ctx, evs[0].isCreate).value).value
      && cs[0].CStart? && cs[0].txHash == CHash(DEADBEEF)
      && cs[|cs| - 1] == CEnd
      && CountOf(cs, START) == 1 && CountOf(cs, END) == 1
      && CountOf(cs, ENTER) == Enters(evs) - 1 && CountOf(cs, EXIT) == |evs| - Enters(evs) - 1
  {
    OneFrameEnds(evs);
    var n := |evs|;
    RunDepth(d, ctx, evs);
    FramePrefix(d, ctx, evs, n - 1);
    var (d1, cs1) := Run(d, ctx, evs[..n - 1]).value;
    EventCounts(d1, ctx, evs[n - 1]);
    var (d2, cs2) := EventOf(d1, ctx, evs[n - 1]).value;
    CountAppend(cs1, cs2, START);
    CountAppend(cs1, cs2, END);
    CountAppend(cs1, cs2, ENTER);
    CountAppend(cs1, cs2, EXIT);
    assert evs[..n] == evs;
  }

  // ---- the statics ----

  class Bridge {
    /** `GET_NONCE_ADDRESS`/`GET_NONCE_NONCE` */
    var nonceCell: Cell<U64>
    /** `GET_CODE_ADDRESS`/`GET_CODE_DATA` */
    var codeCell: Cell<seq<Byte>>
    /** Every call made into the C library, in order. */
    var calls: seq<CCall>

    constructor ()
      ensures nonceCell == EMPTY_CELLS.nonce && codeCell == EMPTY_CELLS.code && calls == []
    {
      nonceCell := EMPTY_CELLS.nonce;
      codeCell := EMPTY_CELLS.code;
      calls := [];
    }

    /** `DepData::default` */
    method Default() returns (d: DepData)
      modifies this`calls
      ensures d == DepData(0) && calls == old(calls) + DEFAULT_CALLS
    {
      calls := calls + [CInitDep(FOUNDRY_CONFIG, false), CRegisterGetNonce, CRegisterGetCode];
      d := DepData(0);
    }

    /**
     * `get_nonce`, over the corrected cell: the armed account is served
     * whatever its address (as written, a cell holding the zero address
     * panics, see `ZeroCalleePanicsAsWritten`).
     */
    method GetNonce(addr: CAddress) returns (ok: bool, nonce: U64)
      modifies this`nonceCell
      ensures ok <==> Take(old(nonceCell)).Ok?
      ensures ok ==> (nonceCell, nonce) == Take(old(nonceCell)).value
    {
      if nonceCell.armed.None? {
        return false, 0;
      }
      nonce := nonceCell.value;
      nonceCell := Cell(None, nonce);
      ok := true;
    }

    /** `get_code`, over the corrected cell, as `GetNonce`. */
    method GetCode(addr: CAddress) returns (ok: bool, code: CSizedArray)
      modifies this`codeCell
      ensures ok <==> Take(old(codeCell)).Ok?
      ensures ok ==> codeCell == Take(old(codeCell)).value.0 && code == ToCSizedArray(Take(old(codeCell)).value.1)
    {
      if codeCell.armed.None? {
        return false, ToCSizedArray([]);
      }
      codeCell := Cell(None, codeCell.value);
      ok, code := true, ToCSizedArray(codeCell.value);
    }

    /** `on_enter`, for `dep_call` (`isCreate` false) and `dep_create` (true) */
    method OnEnter(d: DepData, ctx: Context, isCreate: bool, input: seq<Byte>) returns (ok: bool, d2: DepData)
      modifies this`calls
      ensures ok <==> EnterOf(d, ctx, isCreate, input).Ok?
      ensures ok ==> (d2, calls) == (EnterOf(d, ctx, isCreate, input).value.0, old(calls) + EnterOf(d, ctx, isCreate, input).value.1)
    {
      var addr: Address;
      if isCreate {
        if ctx.txNonce.None? {
          return false, d;
        }
        addr := CryptoHelpers.CreateAddress(ctx.keccak, ctx.caller, ctx.txNonce.value);
      } else {
        if ctx.callTarget.None? {
          return false, d;
        }
        addr := ctx.callTarget.value;
      }
      if d.callDepth == 0 {
        var code: seq<Byte> := [];
        if !isCreate {
          var c := ctx.code(addr);
          if c.Fail? {
            return false, d;
          }
          code := c.value;
        }
        if ctx.block >= U64_LIMIT || ctx.timestamp >= U64_LIMIT {
          return false, d;
        }
        calls := calls + [CStart(isCreate, CAddress(addr), ToCSizedArray(ctx.txData), ctx.block, ctx.timestamp,
                                 CAddress(ctx.caller), CHash(DEADBEEF), ToCSizedArray(code), ctx.cancun, ctx.prevrandao)];
      } else {
        calls := calls + [CEnter(CAddress(addr), ToCSizedArray(input))];
      }
      ok, d2 := true, DepData(d.callDepth + 1);
    }

    /** `on_exit`, for `dep_call_end` and `dep_create_end` */
    method OnExit(d: DepData, output: seq<Byte>) returns (d2: DepData)
      modifies this`calls
      ensures (d2, calls) == (ExitOf(d, output).0, old(calls) + ExitOf(d, output).1)
    {
      d2 := DepData(d.callDepth - 1);
      if d2.callDepth == 0 {
        calls := calls + [CEnd];
      } else {
        calls := calls + [CExit(ToCSizedArray(output), false)];
      }
    }

    /** `dep_step` */
    method DepStep(f: Frame, ctx: Context) returns (ok: bool)
      modifies this`codeCell, this`nonceCell, this`calls
      ensures var r := StepOf(old(Cells(codeCell, nonceCell)), f, ctx);
        && (ok <==> r.Ok?)
        && (ok ==> Cells(codeCell, nonceCell) == r.value.0 && calls == old(calls) + r.value.1)
    {
      var isInvalid := !ctx.known(f.op);
      if !isInvalid {
        if ExtCodeOp(f.op) || CallOp(f.op) {
          var n := |f.stack|;
          if (ExtCodeOp(f.op) && n >= 1) || (CallOp(f.op) && n >= 2) {
            var a := WordToAddress(if ExtCodeOp(f.op) then f.stack[n - 1] else f.stack[n - 2]);
            var c := ctx.code(a);
            if c.Fail? {
              return false;
            }
            codeCell := Cell(Some(a), c.value);
          }
        } else if f.op == CREATE {
          var nonce := ctx.accountNonce(f.target);
          if nonce.None? {
            return false;
          }
          nonceCell := Cell(Some(f.target), nonce.value);
        }
      }
      var stack := StackToCStack(f.stack);
      calls := calls + [COpcode(stack, ToCSizedArray(f.memory), CAddress(f.target), f.pc, f.op, isInvalid, ctx.error)];
      ok := true;
    }
  }
}
