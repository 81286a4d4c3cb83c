// The consumer of the EVM's tracing hooks (tracer/dep_tracer/handler.go):
// a DepHandler turns the opcode, enter, fault and exit callbacks of one
// transaction into the steps the formula database handles, keeping the
// handler of the last instruction until the next one shows its result and
// the handlers of open calls until their frames exit.
module DepHandlers {
  import opened Common
  import opened Opcodes
  import opened Logging
  import opened SimpleDb
  import opened Overlays
  import opened Transactions
  import opened Handles
  import opened Precompiles
  import opened OpHandlers
  import Steps

  /** A handler kept between hooks: its kind and the step its `Before` saved. */
  datatype Pending = Pending(kind: Kind, saved: Option<Data>)

  /** The flow variables and inputs of a DepHandler, as a value (the state database is its `nonceOf`). */
  datatype Flow = Flow(
    activated: bool,
    returnHandled: bool,
    pending: Option<Pending>,
    retHandlers: seq<Pending>,
    returnAddress: Address,
    returnInput: seq<Byte>,
    env: Env)

  /** What a hook does: the new flow and the steps it hands over, in order; `Fail` is a panic. */
  type Outcome = Result<(Flow, seq<Data>)>

  /** A fresh handler: outside any transaction, nothing pending, no state database yet. */
  function Initial(p: Prims): Flow
  {
    Flow(false, false, None, [], ZERO_ADDRESS, [], Env(false, false, (a: Address) => 0, p.keccak))
  }

  /** `NewOPHandlers` as a value: exactly the registered opcodes, each with its handler. */
  ghost predicate Registered(ops: map<Byte, Kind>)
  {
    forall op: Byte :: (op in ops <==> HandlerFor(op).Some?) && (op in ops ==> ops[op] == HandlerFor(op).value)
  }

  /** `NewPrecompileHandlers` as a value: exactly the precompile addresses, each with the handler of its number. */
  ghost predicate PrecompilesRegistered(pcs: map<Address, PrecompileHandler>)
  {
    forall a: Address :: (a in pcs <==> IsPrecompileAddress(a)) && (a in pcs ==> HandlerAt(a[19]) == Some(pcs[a]))
  }

  // ---- the hooks, as functions of the flow ----

  /** `StartTransactionRecording`: only outside a transaction; it takes the fork flags and the state database. */
  function StartFlow(s: Flow, isSelfdestruct6780: bool, isRandom: bool, nonceOf: Address -> U64): (r: Result<Flow>)
    ensures r.Fail? <==> s.activated
  {
    if s.activated then Fail("StartTransactionRecording activated twice")
    else Ok(s.(activated := true, env := Env(isSelfdestruct6780, isRandom, nonceOf, s.env.keccak)))
  }

  /** `EndTransactionRecording`: only inside a transaction. */
  function EndFlow(s: Flow): (r: Result<Flow>)
    ensures r.Fail? <==> !s.activated
    ensures r.Ok? ==> !r.value.activated
  {
    if !s.activated then Fail("EndTransactionRecording is not activated")
    else Ok(s.(activated := false))
  }

  /** `HandleEnter`: the callee and its input, for a precompile's `Execute` at the exit. */
  function EnterFlow(s: Flow, to: Address, input: seq<Byte>): (r: Result<Flow>)
    ensures r.Fail? <==> !s.activated
  {
    if !s.activated then Fail("HandleEnter is not activated")
    else Ok(s.(returnAddress := to, returnInput := input))
  }

  /** `HandleFault`: a REVERT is left to its own handler; any other fault ends the frame as reverted. */
  function FaultStep(s: Flow, op: Byte): (r: Outcome)
    ensures r.Fail? <==> !s.activated
  {
    if !s.activated then Fail("HandleFault is not activated")
    else if op == REVERT then Ok((s, []))
    else Ok((s.(returnHandled := true), [DataError(true)]))
  }

  /** The step of the pending handler, once the instruction's result is on the stack. */
  function AfterPending(s: Flow, stack: seq<Word>): Result<seq<Data>>
  {
    match s.pending
    case None => Ok([])
    case Some(p) => After(p.kind, s.env, p.saved, stack)
  }

  /** The switch on the direction `Before` returns. */
  function Dispatch(s: Flow, k: Kind, st: Started): Result<Flow>
  {
    if st.direction == DIRECTION_NONE then Ok(s.(pending := Some(Pending(k, st.saved))))
    else if st.direction == DIRECTION_RETURN then Ok(s.(returnHandled := true))
    else if st.direction == DIRECTION_CALL then Ok(s.(retHandlers := s.retHandlers + [Pending(k, st.saved)]))
    else Fail("Unknown direction")
  }

  /**
   * `HandleOpcode`: the pending handler completes first; an error ends the
   * frame as reverted; an invalid or unregistered instruction is skipped;
   * otherwise the instruction's handler starts and, by its direction, waits
   * for the next instruction, marks the frame's return as handled, or waits
   * for the exit of the frame it opens.
   */
  function OpcodeStep(s: Flow, ops: map<Byte, Kind>, stack: seq<Word>, memory: seq<Byte>, addr: Address,
                      pc: U64, op: Byte, isInvalid: bool, hasError: bool): (r: Outcome)
    ensures !s.activated ==> r.Fail?
    ensures r.Ok? ==> var t := r.value.0;
      t.activated && t.env == s.env && t.returnAddress == s.returnAddress && t.returnInput == s.returnInput
  {
    if !s.activated then Fail("HandleOpcode is not activated")
    else
      var after := AfterPending(s, stack);
      if after.Fail? then Fail(after.msg)
      else
        var r := InstructionStep(s.(pending := None), ops, stack, memory, addr, pc, op, isInvalid, hasError);
        if r.Fail? then Fail(r.msg) else Ok((r.value.0, after.value + r.value.1))
  }

  /** The part of `HandleOpcode` after the pending handler has completed. */
  function InstructionStep(s: Flow, ops: map<Byte, Kind>, stack: seq<Word>, memory: seq<Byte>, addr: Address,
                           pc: U64, op: Byte, isInvalid: bool, hasError: bool): (r: Outcome)
    ensures r.Ok? ==> var t := r.value.0;
      t.activated == s.activated && t.env == s.env && t.returnAddress == s.returnAddress && t.returnInput == s.returnInput
  {
    if hasError then Ok((s.(returnHandled := true), [DataError(true)]))
    else if isInvalid || op !in ops then Ok((s, []))
    else
      var b := Before(ops[op], s.env, stack, memory, pc, op, addr);
      if b.Fail? then Fail(b.msg)
      else
        var next := Dispatch(s, ops[op], b.value);
        if next.Fail? then Fail(next.msg) else Ok((next.value, b.value.handled))
  }

  /** The step for the frame's own return, unless an instruction or a fault already handed one over. */
  function ReturnStep(s: Flow, pcs: map<Address, PrecompileHandler>, output: seq<Byte>, hasError: bool): Result<seq<Data>>
    requires |s.returnInput| <= INT_MAX
  {
    if s.returnHandled then Ok([])
    else if |output| > 0 then
      if s.returnAddress in pcs then Ok([DataPrecompile(Execute(pcs[s.returnAddress], s.returnInput, output))])
      else Fail("Unknown precompile")
    else Ok([DataError(hasError)])
  }

  /** `HandleExit`: the frame's return step, then the `Exit` of the handler that opened the frame, last in first out. */
  function ExitStep(s: Flow, pcs: map<Address, PrecompileHandler>, output: seq<Byte>, hasError: bool): (r: Outcome)
    requires |s.returnInput| <= INT_MAX
    ensures !s.activated ==> r.Fail?
    ensures r.Ok? ==> var t := r.value.0;
      t.activated && !t.returnHandled && t.pending == s.pending && t.env == s.env
  {
    if !s.activated then Fail("HandleExit is not activated")
    else
      var first := ReturnStep(s, pcs, output, hasError);
      if first.Fail? then Fail(first.msg)
      else if |s.retHandlers| == 0 then Ok((s.(returnHandled := false), first.value))
      else
        var n := |s.retHandlers| - 1;
        var h := s.retHandlers[n];
        Ok((s.(returnHandled := false, retHandlers := s.retHandlers[..n]), first.value + Exit(h.kind, h.saved, !hasError)))
  }

  // ---- what the hooks promise ----

  /** The instructions that end their frame. */
  predicate EndsFrame(op: Byte)
  {
    op == STOP || op == RETURN || op == REVERT || op == SELFDESTRUCT
  }

  /** The instructions that open a frame. */
  predicate OpensFrame(op: Byte)
  {
    op == CREATE || op == CALL || op == CALLCODE || op == DELEGATECALL || op == CREATE2 || op == STATICCALL
  }

  /**
   * The pending handler's steps come first in what an instruction hands
   * over, and afterwards the only handler pending is the one this
   * instruction started, if it stays in the frame.
   */
  lemma PendingFirst(s: Flow, ops: map<Byte, Kind>, stack: seq<Word>, memory: seq<Byte>, addr: Address,
                     pc: U64, op: Byte, isInvalid: bool, hasError: bool)
    requires OpcodeStep(s, ops, stack, memory, addr, pc, op, isInvalid, hasError).Ok?
    ensures AfterPending(s, stack).Ok?
    ensures var a := AfterPending(s, stack).value;
      var r := OpcodeStep(s, ops, stack, memory, addr, pc, op, isInvalid, hasError).value;
      && |a| <= |r.1| && r.1[..|a|] == a
      && (r.0.pending.Some? ==>
            !hasError && !isInvalid && op in ops && r.0.pending.value.kind == ops[op] && DirectionOf(ops[op]) == DIRECTION_NONE)
  {
    var a := AfterPending(s, stack).value;
    var r := OpcodeStep(s, ops, stack, memory, addr, pc, op, isInvalid, hasError).value;
    if !hasError && !isInvalid && op in ops {
      var b := Before(ops[op], s.env, stack, memory, pc, op, addr).value;
      assert r.1 == a + b.handled;
    } else if hasError {
      assert r.1 == a + [DataError(true)];
    }
  }

  /** An error, an invalid instruction and an unregistered instruction start no handler; only an error hands over a step, the reverted return. */
  lemma Skipped(s: Flow, ops: map<Byte, Kind>, stack: seq<Word>, memory: seq<Byte>, addr: Address,
                pc: U64, op: Byte, isInvalid: bool, hasError: bool)
    requires s.activated && AfterPending(s, stack).Ok?
    requires hasError || isInvalid || op !in ops
    ensures var r := OpcodeStep(s, ops, stack, memory, addr, pc, op, isInvalid, hasError);
      var a := AfterPending(s, stack).value;
      && r.Ok?
      && r.value.0 == s.(pending := None, returnHandled := s.returnHandled || hasError)
      && r.value.1 == if hasError then a + [DataError(true)] else a
  {
  }

  /**
   * With the registry of `NewOPHandlers` and an EVM stack that holds the
   * instruction's operands, a registered instruction never panics in its
   * `Before`, and its direction follows the EVM: an instruction that ends
   * its frame marks the frame's return as handled, one that opens a frame
   * pushes its handler for the frame's exit, and every other one waits for
   * the next hook with its saved step.
   */
  lemma RegisteredInstruction(s: Flow, ops: map<Byte, Kind>, stack: seq<Word>, memory: seq<Byte>, addr: Address,
                              pc: U64, op: Byte)
    requires Registered(ops) && s.activated && AfterPending(s, stack).Ok?
    requires op in ops && EvmPops(op) <= |stack|
    ensures var r := OpcodeStep(s, ops, stack, memory, addr, pc, op, false, false);
      var b := Before(ops[op], s.env, stack, memory, pc, op, addr);
      && r.Ok? && b.Ok?
      && r.value.1 == AfterPending(s, stack).value + b.value.handled
      && (EndsFrame(op) ==> r.value.0 == s.(pending := None, returnHandled := true))
      && (OpensFrame(op) ==> r.value.0 == s.(pending := None, retHandlers := s.retHandlers + [Pending(ops[op], b.value.saved)]))
      && (!EndsFrame(op) && !OpensFrame(op) ==> r.value.0 == s.(pending := Some(Pending(ops[op], b.value.saved))))
  {
    RegistryAgrees(op);
  }

  /**
   * The handler an instruction leaves pending completes at the next hook:
   * once the instruction has pushed its results, its `After` finds the top
   * of the stack it reads.
   */
  lemma PendingCompletes(s: Flow, ops: map<Byte, Kind>, op: Byte, saved: Option<Data>, stack: seq<Word>)
    requires Registered(ops) && op in ops && s.pending == Some(Pending(ops[op], saved))
    requires EvmPushes(op) <= |stack|
    ensures AfterPending(s, stack).Ok?
  {
    RegistryAgrees(op);
  }

  /** Whether the frame's return was handed over is exactly: an error, an instruction that ends the frame, or a fault other than REVERT, since the last exit. */
  lemma ReturnHandledBy(s: Flow, ops: map<Byte, Kind>, stack: seq<Word>, memory: seq<Byte>, addr: Address,
                        pc: U64, op: Byte, isInvalid: bool, hasError: bool)
    requires Registered(ops) && OpcodeStep(s, ops, stack, memory, addr, pc, op, isInvalid, hasError).Ok?
    ensures OpcodeStep(s, ops, stack, memory, addr, pc, op, isInvalid, hasError).value.0.returnHandled
      <==> s.returnHandled || hasError || (!isInvalid && op in ops && EndsFrame(op))
  {
    if !hasError && !isInvalid && op in ops {
      RegistryAgrees(op);
    }
  }

  /** Once the frame's return was handed over, its exit hands over nothing of its own: only the `Exit` of the handler that opened it. */
  lemma HandledReturnExit(s: Flow, pcs: map<Address, PrecompileHandler>, output: seq<Byte>, hasError: bool)
    requires s.activated && s.returnHandled && |s.returnInput| <= INT_MAX
    ensures var r := ExitStep(s, pcs, output, hasError);
      && r.Ok?
      && r.value.1 == if s.retHandlers == [] then [] else Exit(s.retHandlers[|s.retHandlers| - 1].kind,
                                                               s.retHandlers[|s.retHandlers| - 1].saved, !hasError)
  {
  }

  /** A REVERT fault is left to the REVERT handler; any other fault hands over a reverted return, so the exit adds none. */
  lemma FaultThenExit(s: Flow, op: Byte, pcs: map<Address, PrecompileHandler>, output: seq<Byte>, hasError: bool)
    requires s.activated && |s.returnInput| <= INT_MAX
    ensures op == REVERT ==> FaultStep(s, op) == Ok((s, []))
    ensures op != REVERT ==> var f := FaultStep(s, op).value;
      && f.1 == [DataError(true)]
      && ExitStep(f.0, pcs, output, hasError).Ok?
      && ExitStep(f.0, pcs, output, hasError).value.1 == ExitStep(s.(returnHandled := true), pcs, output, hasError).value.1
  {
    if op != REVERT {
      HandledReturnExit(s.(returnHandled := true), pcs, output, hasError);
    }
  }

  /**
   * A frame whose return no instruction handed over ends with the
   * precompile's step when it produced output (its handler is the one of the
   * precompile's number, its result that output), and panics when the
   * callee is not a precompile; without output it ends with a plain return
   * or, after an error, a revert.
   */
  lemma UnhandledReturnExit(s: Flow, pcs: map<Address, PrecompileHandler>, output: seq<Byte>, hasError: bool)
    requires PrecompilesRegistered(pcs) && s.activated && !s.returnHandled && |s.returnInput| <= INT_MAX
    ensures var r := ExitStep(s, pcs, output, hasError);
      && (|output| > 0 ==> (r.Ok? <==> IsPrecompileAddress(s.returnAddress)))
      && (|output| > 0 && r.Ok? ==>
            r.value.1[0].DataPrecompile? && Some(Producer(r.value.1[0].pd)) == HandlerAt(s.returnAddress[19])
            && r.value.1[0].pd.result == output)
      && (|output| == 0 ==> r.Ok? && r.value.1[0] == DataError(hasError))
  {
  }

  /** The exit of a frame an instruction opened hands over that instruction's end step, with the frame's outcome, and restores the handlers below it. */
  lemma CallThenExit(s: Flow, ops: map<Byte, Kind>, stack: seq<Word>, memory: seq<Byte>, addr: Address, pc: U64, op: Byte,
                     pcs: map<Address, PrecompileHandler>, output: seq<Byte>, hasError: bool)
    requires |s.returnInput| <= INT_MAX && op in ops && DirectionOf(ops[op]) == DIRECTION_CALL
    requires OpcodeStep(s, ops, stack, memory, addr, pc, op, false, false).Ok?
    requires ExitStep(OpcodeStep(s, ops, stack, memory, addr, pc, op, false, false).value.0, pcs, output, hasError).Ok?
    ensures var s1 := OpcodeStep(s, ops, stack, memory, addr, pc, op, false, false).value.0;
      var r := ExitStep(s1, pcs, output, hasError).value;
      var end := Before(ops[op], s.env, stack, memory, pc, op, addr).value.saved.value;
      && r.0.retHandlers == s.retHandlers
      && EndsCall(ops[op], end)
      && |r.1| > 0 && r.1[|r.1| - 1] == if end.DataCallEnd? then end.(success := !hasError) else end
  {
    var b := Before(ops[op], s.env, stack, memory, pc, op, addr).value;
    var s1 := OpcodeStep(s, ops, stack, memory, addr, pc, op, false, false).value.0;
    assert s1.retHandlers == s.retHandlers + [Pending(ops[op], b.saved)];
    assert s1.retHandlers[..|s.retHandlers|] == s.retHandlers;
  }

  /** Nested frames exit last in first out: the inner call's end step is handed over first, the outer one's next. */
  lemma NestedExits(s: Flow, outer: Pending, inner: Pending, pcs: map<Address, PrecompileHandler>,
                    o1: seq<Byte>, e1: bool, o2: seq<Byte>, e2: bool)
    requires |s.returnInput| <= INT_MAX
    requires ExitStep(s.(retHandlers := s.retHandlers + [outer, inner]), pcs, o1, e1).Ok?
    requires ExitStep(ExitStep(s.(retHandlers := s.retHandlers + [outer, inner]), pcs, o1, e1).value.0, pcs, o2, e2).Ok?
    ensures var r1 := ExitStep(s.(retHandlers := s.retHandlers + [outer, inner]), pcs, o1, e1).value;
      var r2 := ExitStep(r1.0, pcs, o2, e2).value;
      && r2.0.retHandlers == s.retHandlers
      && |Exit(inner.kind, inner.saved, !e1)| <= |r1.1|
      && r1.1[|r1.1| - |Exit(inner.kind, inner.saved, !e1)|..] == Exit(inner.kind, inner.saved, !e1)
      && |Exit(outer.kind, outer.saved, !e2)| <= |r2.1|
      && r2.1[|r2.1| - |Exit(outer.kind, outer.saved, !e2)|..] == Exit(outer.kind, outer.saved, !e2)
  {
    var t := s.retHandlers + [outer, inner];
    assert t[..|t| - 1] == s.retHandlers + [outer];
    assert (s.retHandlers + [outer])[..|s.retHandlers|] == s.retHandlers;
  }

  /**
   * A transaction starts only outside one and ends only inside one; ending
   * it gives back the flow it started from, save for the inputs, since the
   * flow variables are not reset between transactions.
   */
  lemma TransactionCycle(s: Flow, isSelfdestruct6780: bool, isRandom: bool, nonceOf: Address -> U64)
    requires !s.activated
    ensures var t := StartFlow(s, isSelfdestruct6780, isRandom, nonceOf);
      && t.Ok? && StartFlow(t.value, isSelfdestruct6780, isRandom, nonceOf).Fail?
      && EndFlow(t.value) == Ok(s.(env := t.value.env))
      && EndFlow(s).Fail?
  {
  }

  // ---- configuration ----

  /** Where the logger writes. */
  datatype Writer = StdoutWriter | HttpWriter(url: string) | FileWriter(path: string)

  /** The writer of an `output` setting: standard output when empty, HTTP for an `http://` URL, a file otherwise. */
  function WriterFor(output: string): (w: Writer)
    ensures w == StdoutWriter <==> output == ""
    ensures w.HttpWriter? <==> output != "" && "http://" <= output
    ensures w.HttpWriter? ==> w.url == output
    ensures w.FileWriter? ==> w.path == output
  {
    if output == "" then StdoutWriter
    else if |output| >= 7 && output[..7] == "http://" then HttpWriter(output)
    else FileWriter(output)
  }

  datatype KVConfig = KVConfig(engine: string, root: string)

  /** The JSON configuration of the tracer. */
  datatype Config = Config(kv: KVConfig, logger: LoggerDefinition?, output: string, pastUnknown: bool)

  /** What an absent configuration means: every field zero. */
  const EMPTY_CONFIG: Config := Config(KVConfig("", ""), null, "", false)

  /**
   * The checks of `NewDepHandler` on its configuration, given as absent or
   * as the outcome of parsing it: it must parse and name an engine, and an
   * engine other than "memory" and "amnesia" needs a root.
   */
  function CheckConfig(cfg: Option<Result<Config>>): (r: Result<Config>)
    ensures r.Ok? <==> (cfg.None? || cfg.value.Ok?) && Complete(if cfg.None? then EMPTY_CONFIG else cfg.value.value)
    ensures r.Ok? ==> r.value == cfg.value.value
  {
    var c := if cfg.None? then Ok(EMPTY_CONFIG) else cfg.value;
    if c.Fail? then Fail("failed to parse config")
    else if c.value.kv.engine == "" then Fail("kv engine is not set")
    else if c.value.kv.engine != "memory" && c.value.kv.engine != "amnesia" && c.value.kv.root == "" then
      Fail("kv root (path) is not set")
    else c
  }

  /** A configuration names an engine, and a root unless the engine keeps nothing on disk. */
  predicate Complete(c: Config)
  {
    c.kv.engine != "" && (c.kv.engine != "memory" && c.kv.engine != "amnesia" ==> c.kv.root != "")
  }

  /** The stores the key-value engine holds at its root. */
  datatype Stores = Stores(formulas: KV, mapping: KV, slots: KV, codes: KV, codeHashes: KV, versions: KV)

  /** `NewDepHandler`: a deactivated handler over a fresh formula database, with both registries. */
  method NewDepHandler(p: Prims, cfg: Option<Result<Config>>, stores: Stores) returns (ok: bool, h: DepHandler?)
    ensures ok <==> CheckConfig(cfg).Ok?
    ensures ok ==> h != null && fresh(h) && h.Valid() && h.Wired() && h.Value() == Initial(p) && h.state == null
    ensures ok ==> h.handed == [] && h.writer == WriterFor(CheckConfig(cfg).value.output) && h.db.p == p
  {
    var c := CheckConfig(cfg);
    if c.Fail? {
      return false, null;
    }
    var db := Steps.SetupDB(p, c.value.logger, stores.formulas, stores.mapping, stores.slots, stores.codes,
                            stores.codeHashes, stores.versions);
    var ops := NewOPHandlers();
    var pcs := NewPrecompileHandlers();
    h := new DepHandler(db, ops, pcs, WriterFor(c.value.output));
    ok := true;
  }

  /** `TransactionStart`, with the part of its contract the handler relies on. */
  method Open(db: SimpleDB, isCreate: bool, addr: Address, input: seq<Byte>, block: int, timestamp: U64,
              origin: Address, txHash: Hash) returns (ok: bool, state: TransactionDB?)
    requires db.Valid()
    modifies db`formulasWithShorts, db`formulas, db.shorts, db.logger`written, db.logger`context
    ensures db.Valid()
    ensures ok ==> state != null && fresh(state) && state.db == db && state.returndata == []
    ensures ok ==> var f := CurFrame(state.Value()); f.Ok? && f.value.addr == addr && f.value.isCreate == isCreate
  {
    ok, state := Steps.TransactionStart(db, isCreate, addr, input, block, timestamp, origin, txHash);
  }

  /** `Data.Handle`, with the part of its contract the handler relies on. */
  method HandleOne(state: TransactionDB, d: Data) returns (ok: bool)
    requires state.db.Valid()
    modifies state, state.db`formulasWithShorts, state.db`formulas, state.db.shorts
    modifies state.db.logger`written, state.db.logger`context
    ensures state.db.Valid()
  {
    ok := Steps.Handle(state, d);
  }

  // ---- the handler object ----

  class DepHandler {
    var returnHandled: bool
    var activated: bool
    const db: SimpleDB
    var state: TransactionDB?
    var prevOPHandler: Option<Pending>
    const opHandlers: map<Byte, Kind>
    const pcHandlers: map<Address, PrecompileHandler>
    var retHandlers: seq<Pending>
    /** `stateDB.GetNonce`. */
    var nonceOf: Address -> U64
    var returnAddress: Address
    var returnInput: seq<Byte>
    var isRandom: bool
    var isSelfdestruct6780: bool
    /** The writer the logger was given. */
    const writer: Writer
    /** The steps handed to the formula database so far, in order. */
    ghost var handed: seq<Data>

    function Value(): Flow
      reads this
    {
      Flow(activated, returnHandled, prevOPHandler, retHandlers, returnAddress, returnInput,
           Env(isSelfdestruct6780, isRandom, nonceOf, db.p.keccak))
    }

    ghost predicate Valid()
      reads this`activated, this`state, this`returnInput, db
    {
      && db.Valid()
      && (activated ==> state != null && state.db == db)
      && |returnInput| <= INT_MAX
    }

    /** The registries are those of `NewOPHandlers` and `NewPrecompileHandlers` (they never change). */
    ghost predicate Wired()
    {
      Registered(opHandlers) && PrecompilesRegistered(pcHandlers)
    }

    constructor (db: SimpleDB, ops: map<Byte, Kind>, pcs: map<Address, PrecompileHandler>, writer: Writer)
      requires db.Valid() && Registered(ops) && PrecompilesRegistered(pcs)
      ensures Valid() && Wired() && Value() == Initial(db.p) && state == null && handed == []
      ensures this.db == db && this.writer == writer
    {
      returnHandled := false;
      activated := false;
      this.db := db;
      state := null;
      prevOPHandler := None;
      opHandlers := ops;
      pcHandlers := pcs;
      retHandlers := [];
      nonceOf := (a: Address) => 0;
      returnAddress := ZERO_ADDRESS;
      returnInput := [];
      isRandom := false;
      isSelfdestruct6780 := false;
      this.writer := writer;
      handed := [];
    }

    /** Each step's `Handle`, in order, on the transaction's database. */
    method HandOver(ds: seq<Data>) returns (ok: bool)
      requires Valid() && activated
      modifies this`handed, state, db`formulasWithShorts, db`formulas, db.shorts, db.logger`written, db.logger`context
      ensures Valid()
      ensures ok ==> handed == old(handed) + ds
    {
      var i := 0;
      while i < |ds|
        invariant 0 <= i <= |ds|
        invariant db.Valid()
        invariant handed == old(handed) + ds[..i]
      {
        ok := HandleOne(state, ds[i]);
        if !ok {
          return;
        }
        handed := handed + [ds[i]];
        i := i + 1;
      }
      assert ds[..i] == ds;
      ok := true;
    }

    method StartTransactionRecording(isCreate: bool, addr: Address, input: seq<Byte>, block: int, timestamp: U64,
                                     origin: Address, txHash: Hash, code: seq<Byte>,
                                     isSelfdestruct6780: bool, isRandom: bool, nonceOf: Address -> U64)
      returns (ok: bool)
      requires Valid()
      modifies this`activated, this`state, this`isSelfdestruct6780, this`isRandom, this`nonceOf
      modifies db`formulasWithShorts, db`formulas, db.shorts, db.logger`written, db.logger`context
      ensures ok ==> Valid() && handed == old(handed)
      ensures old(activated) ==> !ok
      ensures ok ==> StartFlow(old(Value()), isSelfdestruct6780, isRandom, nonceOf) == Ok(Value())
      ensures ok ==> state != null && fresh(state) && state.returndata == []
    {
      if activated {
        return false;
      }
      activated := true;
      this.isSelfdestruct6780 := isSelfdestruct6780;
      this.isRandom := isRandom;
      this.nonceOf := nonceOf;
      var st: TransactionDB?;
      ok, st := Open(db, isCreate, addr, input, block, timestamp, origin, txHash);
      state := st;
    }

    method EndTransactionRecording() returns (ok: bool)
      requires Valid()
      modifies this, state, db`formulasWithShorts, db`formulas, db`formulasDB, db.shorts, db.logger`written
      modifies db`slotsDB, db`codesDB, db`codeHashesDB, db`versionsDB
      ensures Valid() && handed == old(handed)
      ensures !old(activated) ==> !ok
      ensures ok ==> EndFlow(old(Value())) == Ok(Value()) && state == null && old(state) != null
      ensures ok ==> |old(state.states)| > 0
      ensures ok ==> Committed(old(state.states[|state.states| - 1]).overlay, db.p, old(state.BaseOf()),
                     Base(db.versionsDB, db.slotsDB, db.codeHashesDB, db.codesDB), true)
    {
      if !activated {
        return false;
      }
      activated := false;
      var st := state;
      ok := Steps.TransactionFinish(st);
      state := null;
    }

    /** The pending handler's `After`, which `HandleOpcode` runs first. */
    method CompletePending(stack: seq<Word>) returns (ok: bool)
      requires Valid() && activated
      modifies this`prevOPHandler, this`handed, state, db`formulasWithShorts, db`formulas, db.shorts
      modifies db.logger`written, db.logger`context
      ensures ok ==> Valid() && prevOPHandler == None
      ensures ok ==> var a := AfterPending(old(Value()), stack); a.Ok? && handed == old(handed) + a.value
    {
      var after := AfterPending(Value(), stack);
      if after.Fail? {
        return false;
      }
      ok := HandOver(after.value);
      prevOPHandler := None;
    }

    /** The registered handler of `op` once its `Before` has started: its steps, then the switch on its direction. */
    method StartHandler(k: Kind, b: Started) returns (ok: bool)
      requires Valid() && activated && b.direction in {DIRECTION_NONE, DIRECTION_RETURN, DIRECTION_CALL}
      modifies this`prevOPHandler, this`returnHandled, this`retHandlers, this`handed, state
      modifies db`formulasWithShorts, db`formulas, db.shorts, db.logger`written, db.logger`context
      ensures ok ==> Valid()
      ensures ok ==> Dispatch(old(Value()), k, b) == Ok(Value()) && handed == old(handed) + b.handled
    {
      ok := HandOver(b.handled);
      SwitchDirection(k, b);
    }

    /** The switch on a started handler's direction. */
    method SwitchDirection(k: Kind, st: Started)
      requires st.direction in {DIRECTION_NONE, DIRECTION_RETURN, DIRECTION_CALL}
      modifies this`prevOPHandler, this`returnHandled, this`retHandlers
      ensures Dispatch(old(Value()), k, st) == Ok(Value())
    {
      if st.direction == DIRECTION_NONE {
        prevOPHandler := Some(Pending(k, st.saved));
      } else if st.direction == DIRECTION_RETURN {
        returnHandled := true;
      } else {
        retHandlers := retHandlers + [Pending(k, st.saved)];
      }
    }

    method HandleOpcode(stack: seq<Word>, memory: seq<Byte>, addr: Address, pc: U64, op: Byte,
                        isInvalid: bool, hasError: bool) returns (ok: bool)
      requires Valid()
      modifies this, state, db`formulasWithShorts, db`formulas, db.shorts, db.logger`written, db.logger`context
      ensures ok ==> Valid() && state == old(state)
      ensures !old(activated) ==> !ok
      ensures ok ==> var r := OpcodeStep(old(Value()), opHandlers, stack, memory, addr, pc, op, isInvalid, hasError);
        r.Ok? && Value() == r.value.0 && handed == old(handed) + r.value.1
    {
      if !activated {
        return false;
      }
      ghost var s0 := Value();
      ok := CompletePending(stack);
      if !ok {
        return;
      }
      assert Value() == s0.(pending := None);
      ok := Instruction(stack, memory, addr, pc, op, isInvalid, hasError);
    }

    /** `HandleOpcode` once the pending handler has completed. */
    method Instruction(stack: seq<Word>, memory: seq<Byte>, addr: Address, pc: U64, op: Byte,
                       isInvalid: bool, hasError: bool) returns (ok: bool)
      requires Valid() && activated
      modifies this`prevOPHandler, this`returnHandled, this`retHandlers, this`handed, state
      modifies db`formulasWithShorts, db`formulas, db.shorts, db.logger`written, db.logger`context
      ensures ok ==> Valid()
      ensures ok ==> var r := InstructionStep(old(Value()), opHandlers, stack, memory, addr, pc, op, isInvalid, hasError);
        r.Ok? && Value() == r.value.0 && handed == old(handed) + r.value.1
    {
      if hasError {
        ok := HandOver([DataError(true)]);
        returnHandled := true;
        return;
      }
      if isInvalid || op !in opHandlers {
        assert handed == old(handed) + [];
        return true;
      }
      var b := Before(opHandlers[op], Value().env, stack, memory, pc, op, addr);
      if b.Fail? {
        return false;
      }
      ok := StartHandler(opHandlers[op], b.value);
    }

    method HandleEnter(to: Address, input: seq<Byte>) returns (ok: bool)
      requires Valid() && |input| <= INT_MAX
      modifies this`returnAddress, this`returnInput
      ensures Valid() && handed == old(handed)
      ensures ok <==> old(activated)
      ensures ok ==> EnterFlow(old(Value()), to, input) == Ok(Value())
    {
      if !activated {
        return false;
      }
      returnAddress := to;
      returnInput := input;
      ok := true;
    }

    method HandleFault(op: Byte) returns (ok: bool)
      requires Valid()
      modifies this, state, db`formulasWithShorts, db`formulas, db.shorts, db.logger`written, db.logger`context
      ensures ok ==> Valid() && state == old(state)
      ensures !old(activated) ==> !ok
      ensures ok ==> var r := FaultStep(old(Value()), op); r.Ok? && Value() == r.value.0 && handed == old(handed) + r.value.1
    {
      if !activated {
        return false;
      }
      if op == REVERT {
        return true;
      }
      ok := HandOver([DataError(true)]);
      if !ok {
        return;
      }
      returnHandled := true;
    }

    /** The frame's return step, unless an instruction or a fault already handed one over. */
    method FinishReturn(output: seq<Byte>, hasError: bool) returns (ok: bool)
      requires Valid() && activated
      modifies this`returnHandled, this`handed, state, db`formulasWithShorts, db`formulas, db.shorts
      modifies db.logger`written, db.logger`context
      ensures ok ==> Valid() && !returnHandled
      ensures ok ==> var first := ReturnStep(old(Value()), pcHandlers, output, hasError);
        first.Ok? && handed == old(handed) + first.value
    {
      if !returnHandled {
        if |output| > 0 {
          if returnAddress in pcHandlers {
            ok := HandOver([DataPrecompile(Execute(pcHandlers[returnAddress], returnInput, output))]);
          } else {
            return false;
          }
        } else {
          ok := HandOver([DataError(hasError)]);
        }
      } else {
        ok := true;
      }
      returnHandled := false;
    }

    /** The `Exit` of the handler that opened the frame: the last one pushed. */
    method PopHandler(hasError: bool) returns (ok: bool)
      requires Valid() && activated
      modifies this`retHandlers, this`handed, state, db`formulasWithShorts, db`formulas, db.shorts
      modifies db.logger`written, db.logger`context
      ensures ok ==> Valid()
      ensures ok && |old(retHandlers)| == 0 ==> retHandlers == [] && handed == old(handed)
      ensures ok && |old(retHandlers)| > 0 ==> var n := |old(retHandlers)| - 1; var h := old(retHandlers)[n];
        retHandlers == old(retHandlers)[..n] && handed == old(handed) + Exit(h.kind, h.saved, !hasError)
    {
      if |retHandlers| == 0 {
        return true;
      }
      var n := |retHandlers| - 1;
      var h := retHandlers[n];
      retHandlers := retHandlers[..n];
      ok := HandOver(Exit(h.kind, h.saved, !hasError));
    }

    method HandleExit(output: seq<Byte>, hasError: bool) returns (ok: bool)
      requires Valid()
      modifies this, state, db`formulasWithShorts, db`formulas, db.shorts, db.logger`written, db.logger`context
      ensures ok ==> Valid() && state == old(state)
      ensures !old(activated) ==> !ok
      ensures ok ==> var r := ExitStep(old(Value()), pcHandlers, output, hasError);
        r.Ok? && Value() == r.value.0 && handed == old(handed) + r.value.1
    {
      if !activated {
        return false;
      }
      ok := FinishReturn(output, hasError);
      if !ok {
        return;
      }
      ok := PopHandler(hasError);
    }
  }
}
