// The revm inspector of foundry/tracevm/src/lib.rs: the process-wide
// statics (the recorded data type, the activation hash, the two prefetch
// cells, the queue of trace records) become the fields of one `Bridge`, and
// every call it makes into the C library is appended to `calls`.
module TraceVm {
  import opened Common
  import opened Opcodes
  import opened CTypes
  import opened RustBridge
  import CryptoHelpers

  const DEBUG: Byte := 1
  const TRACE: Byte := 2

  /** The `Debug` configuration: in-memory store, text output to the local HTTP collector. */
  const DEBUG_CONFIG := InitConfig("amnesia", "", [0xe0, 0xe1, 0xe2, 0xe3], [],
                                   true, false, false, false, false, false, false, false, true,
                                   true, false, false, "text", "http://0.0.0.0:4334", true)

  /** The `Trace` configuration: in-memory store, JSON handed back through the trace callback. */
  const TRACE_CONFIG := InitConfig("amnesia", "", [0xe0, 0xe1, 0xe2, 0xe3], [],
                                   false, false, false, false, false, false, false, false, true,
                                   false, true, true, "json", "", true)

  /** `DepData`: the frame depth (an `i32`, see README) and whether this inspector traces. */
  /** revm's `CreateScheme`: a plain CREATE, or CREATE2 with its salt. */
  datatype CreateScheme = Create | Create2(salt: Hash)

  datatype DepData = DepData(callDepth: int, activated: bool)

  /**
   * `DepData::default`: the first default records its type and initialises
   * the library; a `Trace` default after a `Debug` one gets an inactive
   * `DepData`; any other repetition, and an unknown type, panics.
   * Results: the recorded type, the `DepData` and the calls made.
   */
  function DefaultOf(recorded: Byte, dataType: Byte): Result<(Byte, DepData, seq<CCall>)>
  {
    if recorded != 0 then
      if recorded == DEBUG && dataType == TRACE then Ok((recorded, DepData(0, false), []))
      else Fail("Unknown DEP_DATA_TYPEs")
    else if dataType == DEBUG then Ok((DEBUG, DepData(0, true), [CInitDep(DEBUG_CONFIG, false), CRegisterGetNonce, CRegisterGetCode]))
    else if dataType == TRACE then Ok((TRACE, DepData(0, true), [CInitDep(TRACE_CONFIG, true), CRegisterGetNonce, CRegisterGetCode]))
    else Fail("Unknown DATA_TYPE")
  }

  /**
   * The library is initialised once per process: the first default of a
   * known type does it and is active, with the trace callback exactly for
   * `Trace`; every later default is the inactive `Trace`-after-`Debug` one,
   * which calls nothing, or panics.
   */
  lemma DefaultSingleton(recorded: Byte, dataType: Byte)
    ensures recorded == 0 ==> (DefaultOf(recorded, dataType).Ok? <==> dataType == DEBUG || dataType == TRACE)
    ensures recorded == 0 && DefaultOf(recorded, dataType).Ok? ==>
      var (r, d, cs) := DefaultOf(recorded, dataType).value;
      && r == dataType && d == DepData(0, true) && |cs| == 3 && cs[0].CInitDep?
      && cs[0].traceCallback == (dataType == TRACE) && cs[1..] == [CRegisterGetNonce, CRegisterGetCode]
    ensures recorded != 0 ==> (DefaultOf(recorded, dataType).Ok? <==> recorded == DEBUG && dataType == TRACE)
    ensures recorded != 0 && DefaultOf(recorded, dataType).Ok? ==>
      DefaultOf(recorded, dataType).value == (recorded, DepData(0, false), [])
  {
  }

  /** `is_activated`: the `DepData` is active and a non-zero hash has been set. */
  predicate IsActivated(d: DepData, hash: Hash)
  {
    d.activated && hash != ZERO_HASH
  }

  /**
   * The `StartTransactionRecording` of the frame at depth 0: the
   * transaction's data and sender, the activation hash as the transaction
   * hash, no code for a create and the callee's code otherwise (a failing
   * lookup panics), the block number and timestamp as `u64` (`to::<u64>`
   * panics on a larger value), the Cancun and `prevrandao` flags.
   */
  function StartOf(hash: Hash, ctx: Context, isCreate: bool, addr: Address): Result<CCall>
  {
    var code := if isCreate then Ok([]) else ctx.code(addr);
    if code.Fail? then Fail("context.code(addr) failed")
    else if ctx.block >= U64_LIMIT || ctx.timestamp >= U64_LIMIT then Fail("integer does not fit in u64")
    else Ok(CStart(isCreate, CAddress(addr), ToCSizedArray(ctx.txData), ctx.block, ctx.timestamp,
                   CAddress(ctx.caller), CHash(hash), ToCSizedArray(code.value), ctx.cancun, ctx.prevrandao))
  }

  /** What the start of a transaction carries, and when it panics. */
  lemma StartCarries(hash: Hash, ctx: Context, isCreate: bool, addr: Address)
    ensures StartOf(hash, ctx, isCreate, addr).Ok? <==>
      (isCreate || ctx.code(addr).Ok?) && ctx.block < U64_LIMIT && ctx.timestamp < U64_LIMIT
    ensures StartOf(hash, ctx, isCreate, addr).Ok? ==>
      var s := StartOf(hash, ctx, isCreate, addr).value;
      && s.CStart? && s.txHash == CHash(hash) && s.isCreate == isCreate && s.addr == CAddress(addr)
      && s.input.data == ctx.txData && s.origin == CAddress(ctx.caller)
      && s.code.data == (if isCreate then [] else ctx.code(addr).value)
      && s.block == ctx.block && s.timestamp == ctx.timestamp
      && s.isSelfdestruct6780 == ctx.cancun && s.isRandom == ctx.prevrandao
  {
  }

  /**
   * `on_enter`: nothing when inactive; otherwise the transaction starts at
   * depth 0, every frame is entered with its own address and input, and the
   * depth grows by one.
   */
  function EnterOf(d: DepData, hash: Hash, ctx: Context, isCreate: bool, input: seq<Byte>, addr: Address): Result<(DepData, seq<CCall>)>
  {
    if !IsActivated(d, hash) then Ok((d, []))
    else
      var enter := CEnter(CAddress(addr), ToCSizedArray(input));
      var deeper := d.(callDepth := d.callDepth + 1);
      if d.callDepth != 0 then Ok((deeper, [enter]))
      else match StartOf(hash, ctx, isCreate, addr)
        case Fail(e) => Fail(e)
        case Ok(start) => Ok((deeper, [start, enter]))
  }

  /**
   * `on_exit`: nothing when inactive; otherwise the depth drops by one (it
   * is not checked against zero), the frame is left with its output and the
   * error flag, and the transaction ends when the depth reaches zero.
   */
  function ExitOf(d: DepData, hash: Hash, output: seq<Byte>, hasError: bool): (DepData, seq<CCall>)
  {
    if !IsActivated(d, hash) then (d, [])
    else
      var shallower := d.(callDepth := d.callDepth - 1);
      var exit := CExit(ToCSizedArray(output), hasError);
      (shallower, if shallower.callDepth == 0 then [exit, CEnd] else [exit])
  }

  /**
   * `dep_step`: nothing when inactive; otherwise the cells are armed and the
   * instruction goes to the library with the stack, the memory, the running
   * account, the program counter, whether revm cannot decode the opcode and
   * the error flag.
   */
  function StepOf(d: DepData, hash: Hash, cells: Cells, f: Frame, ctx: Context): Result<(Cells, seq<CCall>)>
  {
    if !IsActivated(d, hash) then Ok((cells, []))
    else match Arm(cells, ctx.known(f.op), f.op, f.stack, f.target, ctx)
      case Fail(e) => Fail(e)
      case Ok(armed) =>
        Ok((armed, [COpcode(CStackOf(f.stack), ToCSizedArray(f.memory), CAddress(f.target), f.pc, f.op, !ctx.known(f.op), ctx.error)]))
  }

  /** `dep_step_end`: when active and the instruction left an error, the fault goes to the library. */
  function StepEndOf(d: DepData, hash: Hash, op: Byte, ctx: Context): seq<CCall>
  {
    if IsActivated(d, hash) && ctx.error then [CFault(op)] else []
  }

  /** Without activation (an inactive `DepData` or a zero hash) every hook calls nothing and keeps the depth. */
  lemma Inactive(d: DepData, hash: Hash, ctx: Context, cells: Cells, f: Frame, isCreate: bool, input: seq<Byte>,
                 addr: Address, output: seq<Byte>, hasError: bool)
    requires !d.activated || hash == ZERO_HASH
    ensures EnterOf(d, hash, ctx, isCreate, input, addr) == Ok((d, []))
    ensures ExitOf(d, hash, output, hasError) == (d, [])
    ensures StepOf(d, hash, cells, f, ctx) == Ok((cells, []))
    ensures StepEndOf(d, hash, f.op, ctx) == []
  {
  }

  /**
   * An active instruction is reported once, flagged invalid exactly when
   * revm cannot decode it, with a stack that Go reads back word for word.
   */
  lemma StepReports(d: DepData, hash: Hash, cells: Cells, f: Frame, ctx: Context)
    requires IsActivated(d, hash) && StepOf(d, hash, cells, f, ctx).Ok? && |f.stack| <= INT32_MAX
    ensures var (_, cs) := StepOf(d, hash, cells, f, ctx).value;
      && |cs| == 1 && cs[0].COpcode? && cs[0].isInvalid == !ctx.known(f.op) && cs[0].hasError == ctx.error
      && Words(cs[0].stack) == f.stack && cs[0].op == f.op && cs[0].addr.data == f.target
  {
    StackCrossesIntact(f.stack);
  }

  /** Leaving a frame at depth 0 makes the depth negative and does not end the transaction. */
  lemma ExitUnchecked(d: DepData, hash: Hash, output: seq<Byte>, hasError: bool)
    requires IsActivated(d, hash) && d.callDepth == 0
    ensures ExitOf(d, hash, output, hasError) == (d.(callDepth := -1), [CExit(ToCSizedArray(output), hasError)])
  {
  }

  // ---- sequences of frames ----

  function EventOf(d: DepData, hash: Hash, ctx: Context, e: FrameEvent): Result<(DepData, seq<CCall>)>
  {
    match e
    case EvEnter(isCreate, input, addr) => EnterOf(d, hash, ctx, isCreate, input, addr)
    case EvExit(output, hasError) => Ok(ExitOf(d, hash, output, hasError))
  }

  /** The hooks run over the events in order: the final `DepData` and every call made. */
  function Run(d: DepData, hash: Hash, ctx: Context, evs: seq<FrameEvent>): Result<(DepData, seq<CCall>)>
  {
    if evs == [] then Ok((d, []))
    else match Run(d, hash, ctx, evs[..|evs| - 1])
      case Fail(e) => Fail(e)
      case Ok((d1, cs1)) =>
        match EventOf(d1, hash, ctx, evs[|evs| - 1])
        case Fail(e) => Fail(e)
        case Ok((d2, cs2)) => Ok((d2, cs1 + cs2))
  }

  /** A step of an active run: what it adds to the counts. */
  lemma EventCounts(d: DepData, hash: Hash, ctx: Context, e: FrameEvent)
    requires IsActivated(d, hash) && EventOf(d, hash, ctx, e).Ok?
    ensures var (d2, cs) := EventOf(d, hash, ctx, e).value;
      && d2.activated == d.activated && d2.callDepth == d.callDepth + (if e.EvEnter? then 1 else -1)
      && CountOf(cs, ENTER) == (if e.EvEnter? then 1 else 0) && CountOf(cs, EXIT) == (if e.EvEnter? then 0 else 1)
      && CountOf(cs, START) == (if e.EvEnter? && d.callDepth == 0 then 1 else 0)
      && CountOf(cs, END) == (if e.EvExit? && d2.callDepth == 0 then 1 else 0)
      && (e.EvEnter? && d.callDepth == 0 ==> cs[0] == StartOf(hash, ctx, e.isCreate, e.addr).value)
      && (e.EvExit? && d2.callDepth == 0 ==> cs[|cs| - 1] == CEnd)
  {
    var (d2, cs) := EventOf(d, hash, ctx, e).value;
    if e.EvEnter? {
      var enter := CEnter(CAddress(e.addr), ToCSizedArray(e.input));
      CountOne(enter, ENTER); CountOne(enter, EXIT); CountOne(enter, START); CountOne(enter, END);
      if d.callDepth == 0 {
        var start := StartOf(hash, ctx, e.isCreate, e.addr).value;
        assert cs == [start] + [enter];
        CountOne(start, ENTER); CountOne(start, EXIT); CountOne(start, START); CountOne(start, END);
        CountAppend([start], [enter], ENTER); CountAppend([start], [enter], EXIT);
        CountAppend([start], [enter], START); CountAppend([start], [enter], END);
      }
    } else {
      var exit := CExit(ToCSizedArray(e.output), e.hasError);
      CountOne(exit, ENTER); CountOne(exit, EXIT); CountOne(exit, START); CountOne(exit, END);
      if d2.callDepth == 0 {
        CountOne(CEnd, ENTER); CountOne(CEnd, EXIT); CountOne(CEnd, START); CountOne(CEnd, END);
        CountAppend([exit], [CEnd], ENTER); CountAppend([exit], [CEnd], EXIT);
        CountAppend([exit], [CEnd], START); CountAppend([exit], [CEnd], END);
      }
    }
  }

  /**
   * An active run (with no check on the depth): the depth moves by one per
   * event, and every entry and every exit is passed to the library.
   */
  lemma {:induction false} RunCounts(d: DepData, hash: Hash, ctx: Context, evs: seq<FrameEvent>)
    requires IsActivated(d, hash) && Run(d, hash, ctx, evs).Ok?
    ensures var (d2, cs) := Run(d, hash, ctx, evs).value;
      && d2.activated == d.activated && d2.callDepth == d.callDepth + Depth(evs)
      && CountOf(cs, ENTER) == Enters(evs) && CountOf(cs, EXIT) == |evs| - Enters(evs)
  {
    if evs != [] {
      var init := evs[..|evs| - 1];
      RunCounts(d, hash, ctx, init);
      var (d1, cs1) := Run(d, hash, ctx, init).value;
      EventCounts(d1, hash, ctx, evs[|evs| - 1]);
      var (d2, cs2) := EventOf(d1, hash, ctx, evs[|evs| - 1]).value;
      CountAppend(cs1, cs2, ENTER);
      CountAppend(cs1, cs2, EXIT);
    }
  }

  /** Inside one top-level frame: the transaction has started, with the first frame's start, and not ended. */
  lemma {:induction false} FramePrefix(d: DepData, hash: Hash, ctx: Context, evs: seq<FrameEvent>, k: nat)
    requires IsActivated(d, hash) && d.callDepth == 0 && OneFrame(evs) && 0 < k < |evs|
    requires Run(d, hash, ctx, evs[..k]).Ok?
    ensures evs[0].EvEnter?
    ensures var (d2, cs) := Run(d, hash, ctx, evs[..k]).value;
      && d2.activated && d2.callDepth == Depth(evs[..k]) > 0
      && StartOf(hash, ctx, evs[0].isCreate, evs[0].addr).Ok?
      && |cs| > 0 && cs[0] == StartOf(hash, ctx, evs[0].isCreate, evs[0].addr).value
      && CountOf(cs, START) == 1 && CountOf(cs, END) == 0
  {
    OneFrameEnds(evs);
    RunCounts(d, hash, ctx, evs[..k]);
    var pre := evs[..k][..k - 1];
    assert pre == evs[..k - 1];
    assert evs[..k][k - 1] == evs[k - 1];
    var (d1, cs1) := Run(d, hash, ctx, pre).value;
    EventCounts(d1, hash, ctx, evs[k - 1]);
    var (d2, cs2) := EventOf(d1, hash, ctx, evs[k - 1]).value;
    CountAppend(cs1, cs2, START);
    CountAppend(cs1, cs2, END);
    if k == 1 {
      assert pre == [];
      assert evs[..1] == [evs[0]];
    } else {
      FramePrefix(d, hash, ctx, evs, k - 1);
      RunCounts(d, hash, ctx, pre);
      assert (cs1 + cs2)[0] == cs1[0];
    }
  }

  /**
   * The lifecycle of one transaction, active throughout: the transaction
   * is started exactly once, first, with the activation hash (and no code
   * for a create), and ended exactly once, last; every frame is entered and
   * left through the library; the depth is back to zero.
   */
  lemma Lifecycle(d: DepData, hash: Hash, ctx: Context, evs: seq<FrameEvent>)
    requires IsActivated(d, hash) && d.callDepth == 0 && OneFrame(evs)
    requires Run(d, hash, ctx, evs).Ok?
    ensures evs[0].EvEnter?
    ensures var (d2, cs) := Run(d, hash, ctx, evs).value;
      && d2 == d && |cs| >= 2 && StartOf(hash, ctx, evs[0].isCreate, evs[0].addr).Ok?
      && cs[0] == StartOf(hash, ctx, evs[0].isCreate, evs[0].addr).value
      && cs[0].txHash == CHash(hash) && (evs[0].isCreate ==> cs[0].code.data == [])
      && cs[|cs| - 1] == CEnd
      && CountOf(cs, START) == 1 && CountOf(cs, END) == 1
      && CountOf(cs, ENTER) == Enters(evs) && CountOf(cs, EXIT) == |evs| - Enters(evs)
  {
    OneFrameEnds(evs);
    var n := |evs|;
    RunCounts(d, hash, ctx, evs);
    FramePrefix(d, hash, ctx, evs, n - 1);
    var (d1, cs1) := Run(d, hash, ctx, evs[..n - 1]).value;
    EventCounts(d1, hash, ctx, evs[n - 1]);
    var (d2, cs2) := EventOf(d1, hash, ctx, evs[n - 1]).value;
    CountAppend(cs1, cs2, START);
    CountAppend(cs1, cs2, END);
    StartCarries(hash, ctx, evs[0].isCreate, evs[0].addr);
  }

  // ---- the trace callback queue ----

  /** The `solidity` part of a trace record. */
  datatype JSONSolidity = JSONSolidity(opcode: string, key: string, value: string, offsets: seq<(string, string)>)

  /** The parsers `pull` relies on: `serde_json` for a record and `FixedBytes::<32>::from_hex`. */
  datatype Decoder = Decoder(json: string -> Option<JSONSolidity>, hex32: string -> Option<Hash>)

  datatype StorageEvent = SStoreEvent | SLoadEvent | TStoreEvent | TLoadEvent

  /** The log `pull` makes: emitter, event, its key and value, and the joined offsets (ABI encoding left abstract). */
  datatype EventLog = EventLog(address: Address, event: StorageEvent, key: Hash, value: Hash, offsets: seq<string>)

  /** The event a record's opcode name selects; only the four storage opcodes have one. */
  function StorageEventOf(name: string): (r: Option<StorageEvent>)
    ensures r.Some? <==> name == "sstore" || name == "sload" || name == "tstore" || name == "tload"
  {
    if name == "sstore" then Some(SStoreEvent)
    else if name == "sload" then Some(SLoadEvent)
    else if name == "tstore" then Some(TStoreEvent)
    else if name == "tload" then Some(TLoadEvent)
    else None
  }

  /** Each offset pair as `a + " " + b`. */
  function JoinOffsets(pairs: seq<(string, string)>): seq<string>
  {
    seq(|pairs|, i requires 0 <= i < |pairs| => pairs[i].0 + " " + pairs[i].1)
  }

  /** `trace_callback`/`push`: the queue is created on first use and the record goes to its back. */
  function Push(q: Option<seq<string>>, s: string): Option<seq<string>>
  {
    Some((if q.None? then [] else q.value) + [s])
  }

  /** One record as a log: the unwraps of the parsers panic, and so does an opcode other than the four. */
  function Decode(rec: string, dec: Decoder): (r: Result<EventLog>)
    ensures r.Ok? <==> dec.json(rec).Some? && dec.hex32(dec.json(rec).value.key).Some?
                       && dec.hex32(dec.json(rec).value.value).Some? && StorageEventOf(dec.json(rec).value.opcode).Some?
    ensures r.Ok? ==> r.value.address == ZERO_ADDRESS && r.value.offsets == JoinOffsets(dec.json(rec).value.offsets)
  {
    match dec.json(rec)
    case None => Fail("invalid trace record")
    case Some(j) =>
      match (dec.hex32(j.key), dec.hex32(j.value), StorageEventOf(j.opcode))
      case (Some(key), Some(value), Some(ev)) => Ok(EventLog(ZERO_ADDRESS, ev, key, value, JoinOffsets(j.offsets)))
      case (None, _, _) => Fail("invalid key")
      case (_, None, _) => Fail("invalid value")
      case (_, _, None) => Fail("Unknown opcode")
  }

  /** `pull`: nothing from a missing or empty queue; otherwise the oldest record is removed and decoded. */
  function PullOf(q: Option<seq<string>>, dec: Decoder): Result<(Option<seq<string>>, Option<EventLog>)>
  {
    if q.None? || q.value == [] then Ok((q, None))
    else match Decode(q.value[0], dec)
      case Fail(e) => Fail(e)
      case Ok(log) => Ok((Some(q.value[1..]), Some(log)))
  }

  /** The queue is first in, first out: a pull after a push yields the oldest record and keeps the others in order. */
  lemma PushThenPull(q: Option<seq<string>>, s: string, dec: Decoder)
    ensures var xs := if q.None? then [] else q.value;
      var first := if xs == [] then s else xs[0];
      var r := PullOf(Push(q, s), dec);
      && (r.Ok? <==> Decode(first, dec).Ok?)
      && (r.Ok? ==> r.value == (Some((xs + [s])[1..]), Some(Decode(first, dec).value)))
  {
  }

  /** A missing or empty queue yields no log and stays as it is. */
  lemma PullNothing(q: Option<seq<string>>, dec: Decoder)
    requires q.None? || q.value == []
    ensures PullOf(q, dec) == Ok((q, None))
  {
  }

  // ---- the statics ----

  class Bridge {
    /** `DEP_DATA_TYPE` */
    var recordedType: Byte
    /** `ACTIVATED_HASH` */
    var activatedHash: Hash
    /** `GET_NONCE_ADDRESS`/`GET_NONCE_NONCE` */
    var nonceCell: Cell<U64>
    /** `GET_CODE_ADDRESS`/`GET_CODE_DATA` */
    var codeCell: Cell<seq<Byte>>
    /** `TRACE_CALLBACK_DATA` */
    var queue: Option<seq<string>>
    /** Every call made into the C library, in order. */
    var calls: seq<CCall>

    /** The statics as the process starts. */
    constructor ()
      ensures recordedType == 0 && activatedHash == ZERO_HASH && queue == None && calls == []
      ensures nonceCell == EMPTY_CELLS.nonce && codeCell == EMPTY_CELLS.code
    {
      recordedType := 0;
      activatedHash := ZERO_HASH;
      nonceCell := EMPTY_CELLS.nonce;
      codeCell := EMPTY_CELLS.code;
      queue := None;
      calls := [];
    }

    /** `DepData::default` for `DATA_TYPE == dataType`. */
    method Default(dataType: Byte) returns (ok: bool, d: DepData)
      modifies this`recordedType, this`calls
      ensures ok <==> DefaultOf(old(recordedType), dataType).Ok?
      ensures ok ==> var (r, dd, cs) := DefaultOf(old(recordedType), dataType).value;
        recordedType == r && d == dd && calls == old(calls) + cs
    {
      if recordedType != 0 {
        if recordedType == DEBUG && dataType == TRACE {
          return true, DepData(0, false);
        }
        return false, DepData(0, false);
      }
      recordedType := dataType;
      var cfg: InitConfig;
      var callback: bool;
      if dataType == DEBUG {
        cfg, callback := DEBUG_CONFIG, false;
      } else if dataType == TRACE {
        cfg, callback := TRACE_CONFIG, true;
      } else {
        return false, DepData(0, false);
      }
      calls := calls + [CInitDep(cfg, callback), CRegisterGetNonce, CRegisterGetCode];
      ok, d := true, DepData(0, true);
    }

    /** `activate` */
    method Activate(hash: Hash)
      modifies this`activatedHash
      ensures activatedHash == hash
    {
      activatedHash := hash;
    }

    /** `get_nonce`: the callback the library makes for a nonce; the address it passes is not looked at. */
    method GetNonce(addr: CAddress) returns (ok: bool, nonce: U64)
      modifies this`nonceCell
      ensures ok <==> Take(old(nonceCell)).Ok?
      ensures ok ==> (nonceCell, nonce) == Take(old(nonceCell)).value
    {
      if nonceCell.armed.None? {
        return false, 0;
      }
      nonce := nonceCell.value;
      nonceCell := Cell(None, nonce);
      ok := true;
    }

    /** `get_code`: the callback the library makes for code, as a C array over the stored bytes. */
    method GetCode(addr: CAddress) returns (ok: bool, code: CSizedArray)
      modifies this`codeCell
      ensures ok <==> Take(old(codeCell)).Ok?
      ensures ok ==> codeCell == Take(old(codeCell)).value.0 && code == ToCSizedArray(Take(old(codeCell)).value.1)
    {
      if codeCell.armed.None? {
        return false, ToCSizedArray([]);
      }
      codeCell := Cell(None, codeCell.value);
      ok, code := true, ToCSizedArray(codeCell.value);
    }

    /** `trace_callback`: the library hands over one record. */
    method TraceCallback(record: string)
      modifies this`queue
      ensures queue == Push(old(queue), record)
    {
      if queue.None? {
        queue := Some([]);
      }
      queue := Some(queue.value + [record]);
    }

    /** `pull` */
    method Pull(dec: Decoder) returns (ok: bool, log: Option<EventLog>)
      modifies this`queue
      ensures ok <==> PullOf(old(queue), dec).Ok?
      ensures ok ==> (queue, log) == PullOf(old(queue), dec).value
    {
      if queue.None? || queue.value == [] {
        return true, None;
      }
      var rec := queue.value[0];
      queue := Some(queue.value[1..]);
      var j := dec.json(rec);
      if j.None? {
        return false, None;
      }
      var key := dec.hex32(j.value.key);
      var value := dec.hex32(j.value.value);
      if key.None? || value.None? {
        return false, None;
      }
      var offsets := JoinPairs(j.value.offsets);
      var ev := StorageEventOf(j.value.opcode);
      if ev.None? {
        return false, None;
      }
      ok, log := true, Some(EventLog(ZERO_ADDRESS, ev.value, key.value, value.value, offsets));
    }

    /** `on_enter` */
    method OnEnter(d: DepData, ctx: Context, isCreate: bool, input: seq<Byte>, addr: Address) returns (ok: bool, d2: DepData)
      modifies this`calls
      ensures ok <==> EnterOf(d, activatedHash, ctx, isCreate, input, addr).Ok?
      ensures ok ==> (d2, calls) == (EnterOf(d, activatedHash, ctx, isCreate, input, addr).value.0,
                                      old(calls) + EnterOf(d, activatedHash, ctx, isCreate, input, addr).value.1)
    {
      if !d.activated || activatedHash == ZERO_HASH {
        assert calls == old(calls) + [];
        return true, d;
      }
      if d.callDepth == 0 {
        var code: seq<Byte> := [];
        if !isCreate {
          var c := ctx.code(addr);
          if c.Fail? {
            return false, d;
          }
          code := c.value;
        }
        if ctx.block >= U64_LIMIT || ctx.timestamp >= U64_LIMIT {
          return false, d;
        }
        var start := CStart(isCreate, CAddress(addr), ToCSizedArray(ctx.txData), ctx.block, ctx.timestamp,
                            CAddress(ctx.caller), CHash(activatedHash), ToCSizedArray(code), ctx.cancun, ctx.prevrandao);
        calls := calls + [start, CEnter(CAddress(addr), ToCSizedArray(input))];
      } else {
        calls := calls + [CEnter(CAddress(addr), ToCSizedArray(input))];
      }
      ok, d2 := true, d.(callDepth := d.callDepth + 1);
    }

    /** `on_exit`, with the error flag of the context. */
    method OnExit(d: DepData, ctx: Context, output: seq<Byte>) returns (d2: DepData)
      modifies this`calls
      ensures (d2, calls) == (ExitOf(d, activatedHash, output, ctx.error).0, old(calls) + ExitOf(d, activatedHash, output, ctx.error).1)
    {
      if !d.activated || activatedHash == ZERO_HASH {
        assert calls == old(calls) + [];
        return d;
      }
      d2 := d.(callDepth := d.callDepth - 1);
      if d2.callDepth == 0 {
        calls := calls + [CExit(ToCSizedArray(output), ctx.error), CEnd];
      } else {
        calls := calls + [CExit(ToCSizedArray(output), ctx.error)];
      }
    }

    /** `dep_step` */
    method DepStep(d: DepData, f: Frame, ctx: Context) returns (ok: bool)
      modifies this`codeCell, this`nonceCell, this`calls
      ensures var r := StepOf(d, activatedHash, old(Cells(codeCell, nonceCell)), f, ctx);
        && (ok <==> r.Ok?)
        && (ok ==> Cells(codeCell, nonceCell) == r.value.0 && calls == old(calls) + r.value.1)
    {
      if !d.activated || activatedHash == ZERO_HASH {
        return true;
      }
      var isInvalid := !ctx.known(f.op);
      if !isInvalid {
        if ExtCodeOp(f.op) || CallOp(f.op) {
          var n := |f.stack|;
          if (ExtCodeOp(f.op) && n >= 1) || (CallOp(f.op) && n >= 2) {
            var a := WordToAddress(if ExtCodeOp(f.op) then f.stack[n - 1] else f.stack[n - 2]);
            var c := ctx.code(a);
            if c.Fail? {
              return false;
            }
            codeCell := Cell(Some(a), c.value);
          }
        } else if f.op == CREATE {
          var nonce := ctx.accountNonce(f.target);
          if nonce.None? {
            return false;
          }
          nonceCell := Cell(Some(f.target), nonce.value);
        }
      }
      var stack := StackToCStack(f.stack);
      calls := calls + [COpcode(stack, ToCSizedArray(f.memory), CAddress(f.target), f.pc, f.op, isInvalid, ctx.error)];
      ok := true;
    }

    /** `dep_step_end` */
    method DepStepEnd(d: DepData, op: Byte, ctx: Context)
      modifies this`calls
      ensures calls == old(calls) + StepEndOf(d, activatedHash, op, ctx)
    {
      if !d.activated || activatedHash == ZERO_HASH {
        return;
      }
      if ctx.error {
        calls := calls + [CFault(op)];
      }
    }

    /** `dep_call`: the frame is entered with the call's target and input. */
    method DepCall(d: DepData, ctx: Context, target: Address, input: seq<Byte>) returns (ok: bool, d2: DepData)
      modifies this`calls
      ensures ok <==> EnterOf(d, activatedHash, ctx, false, input, target).Ok?
      ensures ok ==> (d2, calls) == (EnterOf(d, activatedHash, ctx, false, input, target).value.0,
                                      old(calls) + EnterOf(d, activatedHash, ctx, false, input, target).value.1)
    {
      ok, d2 := OnEnter(d, ctx, false, input, target);
    }

    /**
     * `dep_create`: the frame is entered at `created_address` of the
     * creator's current nonce (a creator the journal has not loaded panics).
     * revm derives that address from the scheme: the CREATE address of the
     * creator and its nonce, or for CREATE2 the EIP-1014 address of the
     * creator, the salt and the Keccak hash of the init code.
     */
    method DepCreate(d: DepData, ctx: Context, scheme: CreateScheme, caller: Address, initCode: seq<Byte>)
      returns (ok: bool, d2: DepData)
      modifies this`calls
      ensures ctx.accountNonce(caller).None? ==> !ok
      ensures ctx.accountNonce(caller).Some? ==>
        var addr := if scheme.Create? then ctx.keccak(CryptoHelpers.CreateEncoding(caller, ctx.accountNonce(caller).value))[12..]
                    else ctx.keccak([0xff] + caller + scheme.salt + ctx.keccak(initCode))[12..];
        (ok <==> EnterOf(d, activatedHash, ctx, true, initCode, addr).Ok?)
      ensures ok ==> var addr := if scheme.Create? then ctx.keccak(CryptoHelpers.CreateEncoding(caller, ctx.accountNonce(caller).value))[12..]
                                 else ctx.keccak([0xff] + caller + scheme.salt + ctx.keccak(initCode))[12..];
        && EnterOf(d, activatedHash, ctx, true, initCode, addr).Ok?
        && (d2, calls) == (EnterOf(d, activatedHash, ctx, true, initCode, addr).value.0,
                           old(calls) + EnterOf(d, activatedHash, ctx, true, initCode, addr).value.1)
    {
      var nonce := ctx.accountNonce(caller);
      if nonce.None? {
        return false, d;
      }
      var addr: Address;
      if scheme.Create? {
        addr := CryptoHelpers.CreateAddress(ctx.keccak, caller, nonce.value);
      } else {
        addr := CryptoHelpers.CreateAddress2(ctx.keccak, caller, scheme.salt, ctx.keccak(initCode));
      }
      ok, d2 := OnEnter(d, ctx, true, initCode, addr);
    }

    /** `dep_call_end` and `dep_create_end`: the frame is left with the outcome's output. */
    method DepFrameEnd(d: DepData, ctx: Context, output: seq<Byte>) returns (d2: DepData)
      modifies this`calls
      ensures (d2, calls) == (ExitOf(d, activatedHash, output, ctx.error).0, old(calls) + ExitOf(d, activatedHash, output, ctx.error).1)
    {
      d2 := OnExit(d, ctx, output);
    }
  }

  /** The loop of `pull` that joins the offset pairs, in order. */
  method JoinPairs(pairs: seq<(string, string)>) returns (r: seq<string>)
    ensures r == JoinOffsets(pairs)
  {
    r := [];
    for i := 0 to |pairs|
      invariant r == JoinOffsets(pairs[..i])
    {
      assert JoinOffsets(pairs[..i + 1]) == JoinOffsets(pairs[..i]) + [pairs[i].0 + " " + pairs[i].1];
      r := r + [pairs[i].0 + " " + pairs[i].1];
    }
    assert pairs[..|pairs|] == pairs;
  }
}
