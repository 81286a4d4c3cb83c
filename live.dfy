// The geth live-tracer revision of the consumer (tracer/dep.go): a Dep
// receives the block, transaction, opcode, enter, fault and exit hooks of
// geth, opens a transaction on the formula database at each transaction of
// an open block, and hands its steps over as the DepHandler does, with its
// own rules for invalid and unregistered instructions and a protector that
// skips the frame a SELFDESTRUCT reports.
module LiveDep {
  import opened Common
  import opened Opcodes
  import opened Logging
  import opened SimpleDb
  import opened Overlays
  import opened Transactions
  import opened Handles
  import opened Precompiles
  import opened OpHandlers
  import opened CryptoHelpers
  import opened DepHandlers
  import Steps

  /** The fork rules the chain configuration gives at a block number and time. */
  datatype Forks = Forks(selfdestruct6780: bool, random: bool)
  type ChainConfig = (int, U64) -> Forks

  /** The Dep variables as a value; `flow.activated` says that a transaction is open. */
  datatype Hooks = Hooks(
    writingBlock: bool,
    blockNumber: int,
    time: U64,
    protector: bool,
    config: ChainConfig,
    flow: Flow)

  type LiveOutcome = Result<(Hooks, seq<Data>)>

  /** The inputs the opcode handlers get: the forks at the current block, the transaction's state database. */
  function EnvOf(config: ChainConfig, block: int, time: U64, nonceOf: Address -> U64, keccak: Hasher): (e: Env)
    ensures e.isSelfdestruct6780 == config(block, time).selfdestruct6780 && e.isRandom == config(block, time).random
    ensures e.nonceOf == nonceOf && e.keccak == keccak
  {
    Env(config(block, time).selfdestruct6780, config(block, time).random, nonceOf, keccak)
  }

  /** The handlers' inputs brought up to date with the block and the configuration. */
  function WithEnv(h: Hooks): Hooks
  {
    h.(flow := h.flow.(env := EnvOf(h.config, h.blockNumber, h.time, h.flow.env.nonceOf, h.flow.env.keccak)))
  }

  // ---- the hooks, as functions of the Dep variables ----

  /** `OnBlockStart`: only when no block is open. */
  function BlockStart(h: Hooks, number: int, time: U64): (r: Result<Hooks>)
    ensures r.Fail? <==> h.writingBlock
    ensures r.Ok? ==> r.value.writingBlock && r.value.blockNumber == number && r.value.time == time
  {
    if h.writingBlock then Fail("OnBlockStart called during writingBlock state")
    else Ok(WithEnv(h.(writingBlock := true, blockNumber := number, time := time)))
  }

  /** `OnBlockEnd`: closes an open block, nothing otherwise. */
  function BlockEnd(h: Hooks): (r: Hooks)
    ensures !r.writingBlock
    ensures r.(writingBlock := h.writingBlock) == h
  {
    h.(writingBlock := false)
  }

  /** The address a transaction runs at: the created contract's, or its recipient. */
  function TxAddress(keccak: Hasher, to: Option<Address>, from: Address, nonce: U64): Address
  {
    if to.None? then keccak(CreateEncoding(from, nonce))[12..] else to.value
  }

  /** The address `OnTxStart` opens the transaction at. */
  method OpenAddress(keccak: Hasher, to: Option<Address>, from: Address, nonce: U64) returns (addr: Address)
    ensures addr == TxAddress(keccak, to, from, nonce)
  {
    if to.None? {
      addr := CreateAddress(keccak, from, nonce);
    } else {
      addr := to.value;
    }
  }

  /** `OnTxStart`: inside a block, a transaction is open with the VM's configuration and state database. */
  function TxStart(h: Hooks, config: ChainConfig, nonceOf: Address -> U64): (r: Hooks)
    ensures h.writingBlock ==> r.flow.activated && r.config == config && r.flow.env.nonceOf == nonceOf
    ensures !h.writingBlock ==> r == h
  {
    if !h.writingBlock then h
    else WithEnv(h.(config := config, flow := h.flow.(activated := true, env := h.flow.env.(nonceOf := nonceOf))))
  }

  /** `OnTxEnd`: closes the open transaction. */
  function TxEnd(h: Hooks): (r: Hooks)
    ensures !r.flow.activated
    ensures !h.flow.activated ==> r == h
  {
    h.(flow := h.flow.(activated := false))
  }

  /** geth's invalid instruction: no cost, other than the three that end a frame at no cost. */
  predicate Invalid(op: Byte, cost: U64)
  {
    cost == 0 && op != STOP && op != RETURN && op != REVERT
  }

  /**
   * `OnOpcode`: nothing outside a transaction; otherwise the DepHandler's
   * step with invalidity taken from the cost, a panic on a valid instruction
   * that has no handler, and the protector set by a SELFDESTRUCT.
   */
  function OpcodeLive(h: Hooks, ops: map<Byte, Kind>, stack: seq<Word>, memory: seq<Byte>, addr: Address,
                      pc: U64, op: Byte, cost: U64, hasError: bool): (r: LiveOutcome)
    ensures !h.flow.activated ==> r == Ok((h, []))
    ensures h.flow.activated && !hasError && !Invalid(op, cost) && op !in ops ==> r.Fail?
    ensures r.Ok? ==> r.value.0.writingBlock == h.writingBlock && r.value.0.config == h.config
  {
    if !h.flow.activated then Ok((h, []))
    else
      var invalid := Invalid(op, cost);
      if !hasError && !invalid && op !in ops then Fail("Unknown opcode")
      else
        var s := OpcodeStep(h.flow, ops, stack, memory, addr, pc, op, invalid, hasError);
        if s.Fail? then Fail(s.msg)
        else Ok((h.(flow := s.value.0, protector := h.protector || (!hasError && !invalid && op == SELFDESTRUCT)), s.value.1))
  }

  /** `OpcodeLive` inside a transaction, once the pending handler has completed. */
  lemma OpcodeLiveSteps(h: Hooks, ops: map<Byte, Kind>, stack: seq<Word>, memory: seq<Byte>, addr: Address,
                        pc: U64, op: Byte, cost: U64, hasError: bool)
    requires h.flow.activated && AfterPending(h.flow, stack).Ok? && (hasError || Invalid(op, cost) || op in ops)
    ensures var r := InstructionStep(h.flow.(pending := None), ops, stack, memory, addr, pc, op, Invalid(op, cost), hasError);
      r.Ok? ==> OpcodeLive(h, ops, stack, memory, addr, pc, op, cost, hasError)
                == Ok((h.(flow := r.value.0, protector := h.protector || (!hasError && !Invalid(op, cost) && op == SELFDESTRUCT)),
                       AfterPending(h.flow, stack).value + r.value.1))
  {
  }

  /** `OnEnter`: nothing outside a transaction or under the protector; otherwise the callee and its input. */
  function EnterLive(h: Hooks, to: Address, input: seq<Byte>): Hooks
  {
    if !h.flow.activated || h.protector then h
    else h.(flow := h.flow.(returnAddress := to, returnInput := input))
  }

  /** `OnFault`: nothing outside a transaction; otherwise `HandleFault`. */
  function FaultLive(h: Hooks, op: Byte): (r: LiveOutcome)
    ensures r.Ok?
  {
    if !h.flow.activated then Ok((h, []))
    else
      var f := FaultStep(h.flow, op).value;
      Ok((h.(flow := f.0), f.1))
  }

  /** `OnExit`: nothing outside a transaction; the protector is used up; otherwise `HandleExit`. */
  function ExitLive(h: Hooks, pcs: map<Address, PrecompileHandler>, output: seq<Byte>, hasError: bool): (r: LiveOutcome)
    requires |h.flow.returnInput| <= INT_MAX
  {
    if !h.flow.activated then Ok((h, []))
    else if h.protector then Ok((h.(protector := false), []))
    else
      var e := ExitStep(h.flow, pcs, output, hasError);
      if e.Fail? then Fail(e.msg) else Ok((h.(flow := e.value.0), e.value.1))
  }

  // ---- what the hooks promise ----

  /** Blocks alternate: a second start inside a block panics, a start after an end opens the next one. */
  lemma BlockCycle(h: Hooks, n1: int, t1: U64, n2: int, t2: U64)
    requires !h.writingBlock
    ensures BlockStart(h, n1, t1).Ok?
    ensures BlockStart(BlockStart(h, n1, t1).value, n2, t2).Fail?
    ensures BlockStart(BlockEnd(BlockStart(h, n1, t1).value), n2, t2).Ok?
    ensures BlockEnd(BlockEnd(h)) == BlockEnd(h)
  {
  }

  /** Outside a transaction every instruction, call, fault and exit hook does nothing. */
  lemma Inactive(h: Hooks, ops: map<Byte, Kind>, stack: seq<Word>, memory: seq<Byte>, addr: Address, pc: U64, op: Byte,
                 cost: U64, hasError: bool, to: Address, input: seq<Byte>, pcs: map<Address, PrecompileHandler>,
                 output: seq<Byte>)
    requires !h.flow.activated && |h.flow.returnInput| <= INT_MAX
    ensures OpcodeLive(h, ops, stack, memory, addr, pc, op, cost, hasError) == Ok((h, []))
    ensures EnterLive(h, to, input) == h
    ensures FaultLive(h, op) == Ok((h, []))
    ensures ExitLive(h, pcs, output, hasError) == Ok((h, []))
    ensures TxEnd(h) == h
  {
  }

  /**
   * Once a SELFDESTRUCT has been handed over, the frame it reports is
   * skipped: its enter does nothing, and its exit only clears the protector.
   */
  lemma SelfdestructSkipsFrame(h: Hooks, ops: map<Byte, Kind>, stack: seq<Word>, memory: seq<Byte>, addr: Address,
                               pc: U64, cost: U64, to: Address, input: seq<Byte>,
                               pcs: map<Address, PrecompileHandler>, output: seq<Byte>, hasError: bool)
    requires h.flow.activated && cost > 0
    requires OpcodeLive(h, ops, stack, memory, addr, pc, SELFDESTRUCT, cost, false).Ok?
    requires |OpcodeLive(h, ops, stack, memory, addr, pc, SELFDESTRUCT, cost, false).value.0.flow.returnInput| <= INT_MAX
    ensures var s := OpcodeLive(h, ops, stack, memory, addr, pc, SELFDESTRUCT, cost, false).value.0;
      && s.protector
      && EnterLive(s, to, input) == s
      && ExitLive(s, pcs, output, hasError) == Ok((s.(protector := false), []))
  {
  }

  /**
   * The live tracer differs from the DepHandler on one instruction class
   * only: a valid instruction without a handler panics here, where the
   * DepHandler skips it; everything else is the DepHandler's step.
   */
  lemma AgreesWithHandler(h: Hooks, ops: map<Byte, Kind>, stack: seq<Word>, memory: seq<Byte>, addr: Address,
                          pc: U64, op: Byte, cost: U64, hasError: bool)
    requires h.flow.activated && (hasError || Invalid(op, cost) || op in ops)
    ensures var r := OpcodeLive(h, ops, stack, memory, addr, pc, op, cost, hasError);
      var s := OpcodeStep(h.flow, ops, stack, memory, addr, pc, op, Invalid(op, cost), hasError);
      && (r.Ok? <==> s.Ok?)
      && (r.Ok? ==> r.value.0.flow == s.value.0 && r.value.1 == s.value.1)
  {
  }

  /**
   * The registry as written has no MSTORE8 handler (see
   * `OpHandlers.MStore8Unregistered`); with it, every MSTORE8 the EVM runs
   * without an error panics the live tracer, where the DepHandler skips it.
   */
  lemma MStore8PanicsLive(h: Hooks, ops: map<Byte, Kind>, stack: seq<Word>, memory: seq<Byte>, addr: Address,
                          pc: U64, cost: U64)
    requires h.flow.activated && cost > 0 && MSTORE8 !in ops
    ensures HandlerAsWritten(MSTORE8).None?
    ensures OpcodeLive(h, ops, stack, memory, addr, pc, MSTORE8, cost, false).Fail?
    ensures OpcodeStep(h.flow, ops, stack, memory, addr, pc, MSTORE8, false, false).Ok? ==>
      OpcodeStep(h.flow, ops, stack, memory, addr, pc, MSTORE8, false, false).value.0.pending == None
  {
    MStore8Unregistered();
  }

  // ---- configuration ----

  datatype LiveConfig = LiveConfig(kv: KVConfig, logger: LoggerDefinition?, output: string)

  /**
   * The checks of `newDep`: an absent configuration is all zero, one that
   * does not parse is an error, and both an engine and a root are required.
   */
  function CheckLiveConfig(cfg: Option<Result<LiveConfig>>): (r: Result<LiveConfig>)
    ensures r.Ok? <==> cfg.Some? && cfg.value.Ok? && cfg.value.value.kv.engine != "" && cfg.value.value.kv.root != ""
    ensures r.Ok? ==> r.value == cfg.value.value
  {
    var c := if cfg.None? then Ok(LiveConfig(KVConfig("", ""), null, "")) else cfg.value;
    if c.Fail? then Fail("failed to parse config")
    else if c.value.kv.engine == "" then Fail("kv engine is not set")
    else if c.value.kv.root == "" then Fail("kv root (path) is not set")
    else c
  }

  /** The live tracer's writer: standard output when `output` is empty, a file otherwise. */
  function LiveWriterFor(output: string): (w: Writer)
    ensures w == StdoutWriter <==> output == ""
    ensures w != StdoutWriter ==> w == FileWriter(output)
  {
    if output == "" then StdoutWriter else FileWriter(output)
  }

  /** A Dep before its first block: no configuration or state database yet. */
  function InitialHooks(p: Prims): Hooks
  {
    var none: ChainConfig := (b: int, t: U64) => Forks(false, false);
    Hooks(false, 0, 0, false, none, Initial(p).(env := EnvOf(none, 0, 0, (a: Address) => 0, p.keccak)))
  }

  /** `newDep`: a Dep outside any block over a fresh formula database, with both registries. */
  method NewDep(p: Prims, cfg: Option<Result<LiveConfig>>, stores: Stores) returns (ok: bool, d: Dep?)
    ensures ok <==> CheckLiveConfig(cfg).Ok?
    ensures ok ==> d != null && fresh(d) && d.Valid() && d.Wired() && d.Value() == InitialHooks(p) && d.state == null
    ensures ok ==> d.handed == [] && d.writer == LiveWriterFor(CheckLiveConfig(cfg).value.output) && d.db.p == p
  {
    var c := CheckLiveConfig(cfg);
    if c.Fail? {
      return false, null;
    }
    var db := Steps.SetupDB(p, c.value.logger, stores.formulas, stores.mapping, stores.slots, stores.codes,
                            stores.codeHashes, stores.versions);
    var ops := NewOPHandlers();
    var pcs := NewPrecompileHandlers();
    d := new Dep(db, ops, pcs, LiveWriterFor(c.value.output));
    ok := true;
  }

  // ---- the tracer object ----

  class Dep {
    var writingBlock: bool
    const db: SimpleDB
    var state: TransactionDB?
    var prevOPHandler: Option<Pending>
    const opHandlers: map<Byte, Kind>
    const pcHandlers: map<Address, PrecompileHandler>
    var retHandlers: seq<Pending>
    var chainConfig: ChainConfig
    /** `stateDB.GetNonce`. */
    var nonceOf: Address -> U64
    var returnHandled: bool
    var returnAddress: Address
    var returnInput: seq<Byte>
    var blockNumber: int
    var time: U64
    var selfdestructProtector: bool
    const writer: Writer
    /** The steps handed to the formula database so far, in order. */
    ghost var handed: seq<Data>

    function Value(): Hooks
      reads this
    {
      Hooks(writingBlock, blockNumber, time, selfdestructProtector, chainConfig,
            Flow(state != null, returnHandled, prevOPHandler, retHandlers, returnAddress, returnInput,
                 EnvOf(chainConfig, blockNumber, time, nonceOf, db.p.keccak)))
    }

    ghost predicate Valid()
      reads this`state, this`returnInput, db
    {
      && db.Valid()
      && (state != null ==> state.db == db)
      && |returnInput| <= INT_MAX
    }

    ghost predicate Wired()
    {
      Registered(opHandlers) && PrecompilesRegistered(pcHandlers)
    }

    constructor (db: SimpleDB, ops: map<Byte, Kind>, pcs: map<Address, PrecompileHandler>, writer: Writer)
      requires db.Valid() && Registered(ops) && PrecompilesRegistered(pcs)
      ensures Valid() && Wired() && Value() == InitialHooks(db.p) && state == null && handed == []
      ensures this.db == db && this.writer == writer
    {
      writingBlock := false;
      this.db := db;
      state := null;
      prevOPHandler := None;
      opHandlers := ops;
      pcHandlers := pcs;
      retHandlers := [];
      chainConfig := (b: int, t: U64) => Forks(false, false);
      nonceOf := (a: Address) => 0;
      returnHandled := false;
      returnAddress := ZERO_ADDRESS;
      returnInput := [];
      blockNumber := 0;
      time := 0;
      selfdestructProtector := false;
      this.writer := writer;
      handed := [];
    }

    method OnBlockStart(number: int, time: U64) returns (ok: bool)
      requires Valid()
      modifies this`writingBlock, this`blockNumber, this`time
      ensures Valid() && handed == old(handed)
      ensures ok <==> !old(writingBlock)
      ensures ok ==> BlockStart(old(Value()), number, time) == Ok(Value())
    {
      if writingBlock {
        return false;
      }
      writingBlock := true;
      blockNumber := number;
      this.time := time;
      ok := true;
    }

    method OnBlockEnd()
      requires Valid()
      modifies this`writingBlock
      ensures Valid() && handed == old(handed)
      ensures Value() == BlockEnd(old(Value()))
    {
      if !writingBlock {
        return;
      }
      writingBlock := false;
    }

    /**
     * `OnTxStart`: inside a block, a create at the address of the sender's
     * nonce when the transaction has no recipient, otherwise a call of the
     * recipient; a transaction still open is dropped.
     */
    method OnTxStart(to: Option<Address>, from: Address, nonce: U64, data: seq<Byte>, vmBlock: int, vmTime: U64,
                     txHash: Hash, config: ChainConfig, stateNonceOf: Address -> U64) returns (ok: bool)
      requires Valid()
      modifies this`state, this`chainConfig, this`nonceOf
      modifies db`formulasWithShorts, db`formulas, db.shorts, db.logger`written, db.logger`context
      ensures ok ==> Valid() && handed == old(handed)
      ensures !old(writingBlock) ==> ok && state == old(state) && Value() == old(Value())
      ensures old(writingBlock) && ok ==> Value() == TxStart(old(Value()), config, stateNonceOf)
      ensures old(writingBlock) && ok ==> state != null && fresh(state)
      ensures old(writingBlock) && ok ==>
        var f := CurFrame(state.Value());
        f.Ok? && f.value.isCreate == to.None? && f.value.addr == TxAddress(db.p.keccak, to, from, nonce)
    {
      if !writingBlock {
        return true;
      }
      var addr := OpenAddress(db.p.keccak, to, from, nonce);
      ok := OpenTx(to.None?, addr, data, vmBlock, vmTime, from, txHash, config, stateNonceOf);
    }

    /** The transaction `OnTxStart` opens inside a block, at `addr`. */
    method OpenTx(isCreate: bool, addr: Address, data: seq<Byte>, vmBlock: int, vmTime: U64, from: Address,
                  txHash: Hash, config: ChainConfig, stateNonceOf: Address -> U64) returns (ok: bool)
      requires Valid() && writingBlock
      modifies this`state, this`chainConfig, this`nonceOf
      modifies db`formulasWithShorts, db`formulas, db.shorts, db.logger`written, db.logger`context
      ensures ok ==> Valid() && state != null && fresh(state)
      ensures ok ==> Value() == TxStart(old(Value()), config, stateNonceOf)
      ensures ok ==> var f := CurFrame(state.Value()); f.Ok? && f.value.isCreate == isCreate && f.value.addr == addr
    {
      var st: TransactionDB?;
      ok, st := Open(db, isCreate, addr, data, vmBlock, vmTime, from, txHash);
      if !ok {
        return;
      }
      state := st;
      chainConfig := config;
      nonceOf := stateNonceOf;
    }

    /** `OnTxEnd`: the open transaction's overlay is committed into the stores and the transaction closed. */
    method OnTxEnd() returns (ok: bool)
      requires Valid()
      modifies this`state, state, db`formulasWithShorts, db`formulas, db`formulasDB, db.shorts, db.logger`written
      modifies db`slotsDB, db`codesDB, db`codeHashesDB, db`versionsDB
      ensures ok ==> Valid() && handed == old(handed) && state == null
      ensures old(state) == null ==> ok && Value() == old(Value())
      ensures ok ==> Value() == TxEnd(old(Value()))
      ensures ok && old(state) != null ==> |old(state.states)| > 0
      ensures ok && old(state) != null ==>
        Committed(old(state.states[|state.states| - 1]).overlay, db.p, old(state.BaseOf()),
                  Base(db.versionsDB, db.slotsDB, db.codeHashesDB, db.codesDB), true)
    {
      if state == null {
        return true;
      }
      var st := state;
      ok := Steps.TransactionFinish(st);
      state := null;
    }

    /** Each step's `Handle`, in order, on the transaction's database. */
    method HandOver(ds: seq<Data>) returns (ok: bool)
      requires Valid() && state != null
      modifies this`handed, state, db`formulasWithShorts, db`formulas, db.shorts, db.logger`written, db.logger`context
      ensures Valid()
      ensures ok ==> handed == old(handed) + ds
    {
      var i := 0;
      while i < |ds|
        invariant 0 <= i <= |ds|
        invariant db.Valid()
        invariant handed == old(handed) + ds[..i]
      {
        ok := HandleOne(state, ds[i]);
        if !ok {
          return;
        }
        handed := handed + [ds[i]];
        i := i + 1;
      }
      assert ds[..i] == ds;
      ok := true;
    }

    /** The pending handler's `After`, which `OnOpcode` runs first. */
    method CompletePending(stack: seq<Word>) returns (ok: bool)
      requires Valid() && state != null
      modifies this`prevOPHandler, this`handed, state, db`formulasWithShorts, db`formulas, db.shorts
      modifies db.logger`written, db.logger`context
      ensures ok ==> Valid() && prevOPHandler == None
      ensures ok ==> var a := AfterPending(old(Value()).flow, stack); a.Ok? && handed == old(handed) + a.value
    {
      var after := AfterPending(Value().flow, stack);
      if after.Fail? {
        return false;
      }
      ok := HandOver(after.value);
      prevOPHandler := None;
    }

    /** The registered handler of `op` once its `Before` has started: its steps, then the switch on its direction. */
    method StartHandler(k: Kind, b: Started) returns (ok: bool)
      requires Valid() && state != null && b.direction in {DIRECTION_NONE, DIRECTION_RETURN, DIRECTION_CALL}
      modifies this`prevOPHandler, this`returnHandled, this`retHandlers, this`handed, state
      modifies db`formulasWithShorts, db`formulas, db.shorts, db.logger`written, db.logger`context
      ensures ok ==> Valid()
      ensures ok ==> Dispatch(old(Value().flow), k, b) == Ok(Value().flow) && handed == old(handed) + b.handled
    {
      ok := HandOver(b.handled);
      SwitchDirection(k, b);
    }

    /** The switch on a started handler's direction. */
    method SwitchDirection(k: Kind, st: Started)
      requires st.direction in {DIRECTION_NONE, DIRECTION_RETURN, DIRECTION_CALL}
      modifies this`prevOPHandler, this`returnHandled, this`retHandlers
      ensures Dispatch(old(Value().flow), k, st) == Ok(Value().flow)
    {
      if st.direction == DIRECTION_NONE {
        prevOPHandler := Some(Pending(k, st.saved));
      } else if st.direction == DIRECTION_RETURN {
        returnHandled := true;
      } else {
        retHandlers := retHandlers + [Pending(k, st.saved)];
      }
    }

    method OnOpcode(pc: U64, op: Byte, cost: U64, stack: seq<Word>, memory: seq<Byte>, addr: Address,
                    hasError: bool) returns (ok: bool)
      requires Valid()
      modifies this, state, db`formulasWithShorts, db`formulas, db.shorts, db.logger`written, db.logger`context
      ensures ok ==> Valid() && state == old(state)
      ensures ok ==> var r := OpcodeLive(old(Value()), opHandlers, stack, memory, addr, pc, op, cost, hasError);
        r.Ok? && Value() == r.value.0 && handed == old(handed) + r.value.1
    {
      if state == null {
        return true;
      }
      ghost var h0 := Value();
      ok := CompletePending(stack);
      if !ok {
        return;
      }
      assert Value() == h0.(flow := h0.flow.(pending := None));
      ok := Instruction(pc, op, cost, stack, memory, addr, hasError);
      if ok {
        OpcodeLiveSteps(h0, opHandlers, stack, memory, addr, pc, op, cost, hasError);
      }
    }

    /** `OnOpcode` once the pending handler has completed. */
    method Instruction(pc: U64, op: Byte, cost: U64, stack: seq<Word>, memory: seq<Byte>, addr: Address,
                       hasError: bool) returns (ok: bool)
      requires Valid() && state != null
      modifies this`prevOPHandler, this`returnHandled, this`retHandlers, this`handed, this`selfdestructProtector, state
      modifies db`formulasWithShorts, db`formulas, db.shorts, db.logger`written, db.logger`context
      ensures ok ==> Valid()
      ensures !hasError && !Invalid(op, cost) && op !in opHandlers ==> !ok
      ensures ok ==> var r := InstructionStep(old(Value()).flow, opHandlers, stack, memory, addr, pc, op, Invalid(op, cost), hasError);
        && r.Ok? && handed == old(handed) + r.value.1
        && Value() == old(Value()).(flow := r.value.0, protector := old(selfdestructProtector) || (!hasError && !Invalid(op, cost) && op == SELFDESTRUCT))
    {
      if hasError {
        ok := HandOver([DataError(true)]);
        returnHandled := true;
        return;
      }
      if Invalid(op, cost) {
        assert handed == old(handed) + [];
        return true;
      }
      if op == SELFDESTRUCT {
        selfdestructProtector := true;
      }
      if op !in opHandlers {
        return false;
      }
      var b := Before(opHandlers[op], Value().flow.env, stack, memory, pc, op, addr);
      if b.Fail? {
        return false;
      }
      ok := StartHandler(opHandlers[op], b.value);
    }

    method OnEnter(to: Address, input: seq<Byte>)
      requires Valid() && |input| <= INT_MAX
      modifies this`returnAddress, this`returnInput
      ensures Valid() && handed == old(handed)
      ensures Value() == EnterLive(old(Value()), to, input)
    {
      if state == null || selfdestructProtector {
        return;
      }
      returnAddress := to;
      returnInput := input;
    }

    method OnFault(op: Byte) returns (ok: bool)
      requires Valid()
      modifies this`returnHandled, this`handed, state
      modifies db`formulasWithShorts, db`formulas, db.shorts, db.logger`written, db.logger`context
      ensures ok ==> Valid()
      ensures ok ==> var r := FaultLive(old(Value()), op); Value() == r.value.0 && handed == old(handed) + r.value.1
    {
      if state == null || op == REVERT {
        return true;
      }
      ok := HandOver([DataError(true)]);
      if !ok {
        return;
      }
      returnHandled := true;
    }

    /** The frame's return step, unless an instruction or a fault already handed one over. */
    method FinishReturn(output: seq<Byte>, hasError: bool) returns (ok: bool)
      requires Valid() && state != null
      modifies this`returnHandled, this`handed, state, db`formulasWithShorts, db`formulas, db.shorts
      modifies db.logger`written, db.logger`context
      ensures ok ==> Valid() && !returnHandled
      ensures ok ==> var first := ReturnStep(old(Value()).flow, pcHandlers, output, hasError);
        first.Ok? && handed == old(handed) + first.value
    {
      if !returnHandled {
        if |output| > 0 {
          if returnAddress in pcHandlers {
            ok := HandOver([DataPrecompile(Execute(pcHandlers[returnAddress], returnInput, output))]);
          } else {
            return false;
          }
        } else {
          ok := HandOver([DataError(hasError)]);
        }
      } else {
        ok := true;
      }
      returnHandled := false;
    }

    /** The `Exit` of the handler that opened the frame: the last one pushed. */
    method PopHandler(hasError: bool) returns (ok: bool)
      requires Valid() && state != null
      modifies this`retHandlers, this`handed, state, db`formulasWithShorts, db`formulas, db.shorts
      modifies db.logger`written, db.logger`context
      ensures ok ==> Valid()
      ensures ok && |old(retHandlers)| == 0 ==> retHandlers == [] && handed == old(handed)
      ensures ok && |old(retHandlers)| > 0 ==> var n := |old(retHandlers)| - 1; var h := old(retHandlers)[n];
        retHandlers == old(retHandlers)[..n] && handed == old(handed) + Exit(h.kind, h.saved, !hasError)
    {
      if |retHandlers| == 0 {
        return true;
      }
      var n := |retHandlers| - 1;
      var h := retHandlers[n];
      retHandlers := retHandlers[..n];
      ok := HandOver(Exit(h.kind, h.saved, !hasError));
    }

    method OnExit(output: seq<Byte>, hasError: bool) returns (ok: bool)
      requires Valid()
      modifies this, state, db`formulasWithShorts, db`formulas, db.shorts, db.logger`written, db.logger`context
      ensures ok ==> Valid() && state == old(state)
      ensures ok ==> var r := ExitLive(old(Value()), pcHandlers, output, hasError);
        r.Ok? && Value() == r.value.0 && handed == old(handed) + r.value.1
    {
      if state == null {
        return true;
      }
      if selfdestructProtector {
        selfdestructProtector := false;
        return true;
      }
      ok := FinishReturn(output, hasError);
      if !ok {
        return;
      }
      ok := PopHandler(hasError);
    }
  }
}
