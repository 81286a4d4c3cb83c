// The entry points of the dependency machine (tracer/dep_tracer/global.go):
// opening the formula database with the default logging, starting and
// finishing a transaction, and dispatching one recorded step to the handle
// of its kind.
module Steps {
  import opened Common
  import opened Opcodes
  import opened Formulas
  import opened Logging
  import opened Shorterning
  import opened SimpleDb
  import opened StackedFrames
  import opened Overlays
  import opened Transactions
  import opened Handles
  import opened PrecompileHandles

  /** What is logged when no definition is given: final slots (short and full), full return data, full logs, and the Solidity view of final slots. */
  const DEFAULT_LOGGING: LoggerSettings := LoggerSettings(
    {}, {}, true, true, false, false, false, true, false, true, true)

  /**
   * `SetupDB`: the crypto protected definition, the given logging or the
   * default, over the stores found in the key-value engine.
   */
  method SetupDB(p: Prims, toLog: LoggerDefinition?, formulasDB: KV, mappingDB: KV,
                 slotsDB: KV, codesDB: KV, codeHashesDB: KV, versionsDB: KV) returns (db: SimpleDB)
    ensures fresh(db) && db.Valid() && db.p == p
    ensures db.logger.toLog == if toLog == null then DEFAULT_LOGGING else old(toLog.Settings())
    ensures |db.shorts| == 1 && db.shorts[0].protected.name == "crypto"
    ensures forall op :: IsProtected(db.shorts[0].protected, op) <==> op in CRYPTO_OPS
    ensures db.slotsDB == slotsDB && db.codesDB == codesDB && db.codeHashesDB == codeHashesDB && db.versionsDB == versionsDB
  {
    var crypto := CryptoProtectedDefinition();
    var settings: LoggerSettings;
    if toLog == null {
      var def := new LoggerDefinition();
      def.finalSlotsShort := true;
      def.finalSlotsFull := true;
      def.returnDataFull := true;
      def.logsFull := true;
      def.solViewFinalSlots := true;
      settings := def.Settings();
    } else {
      settings := toLog.Settings();
    }
    db := new SimpleDB(p, [crypto], settings, formulasDB, [mappingDB], slotsDB, codesDB, codeHashesDB, versionsDB);
  }

  /**
   * `TransactionStart`: a create of `address` with the input as initcode, or
   * a call of `address` with the input as calldata; then the logger enters
   * the block's context and points at the new frame.
   */
  method TransactionStart(db: SimpleDB, isCreate: bool, address: Address, input: seq<Byte>,
                          block: int, timestamp: U64, origin: Address, txHash: Hash)
    returns (ok: bool, state: TransactionDB?)
    requires db.Valid()
    modifies db`formulasWithShorts, db`formulas, db.shorts, db.logger`written, db.logger`context
    ensures db.Valid()
    ensures ok ==> state != null && fresh(state) && state.db == db && state.returndata == []
    ensures ok ==> |state.states| == 2 && |state.states[1].frames| == 2
    ensures ok ==> var f := CurFrame(state.Value());
      f.Ok? && f.value.addr == address && f.value.isCreate == isCreate
      && (!isCreate ==> f.value.codeAddr == address) && (isCreate ==> f.value.codeAddr == ZERO_ADDRESS)
      && ContextOf(db.logger.context,
                   old(db.logger.context).(block := Some(block), timestamp := timestamp, origin := origin, txHash := txHash),
                   f.value)
    ensures !isCreate && |old(db.codesDB)| >= U64_LIMIT ==> !ok
  {
    if isCreate {
      ok, state := TransactionDB.NewCreate(db, address, ZERO_ADDRESS, input);
    } else if |db.codesDB| < U64_LIMIT {
      ok, state := TransactionDB.NewCall(db, address, address, input);
    } else {
      return false, null;
    }
    if !ok {
      return false, state;
    }
    db.logger.EnterContext(block, timestamp, origin, txHash);
    ok := SetContract(state);
  }

  /** `TransactionFinish`: commit the overlay of the transaction's current state into the stores. */
  method TransactionFinish(state: TransactionDB) returns (ok: bool)
    requires state.db.Valid()
    modifies state`states
    modifies state.db`formulasWithShorts, state.db`formulas, state.db`formulasDB, state.db.shorts, state.db.logger`written
    modifies state.db`slotsDB, state.db`codesDB, state.db`codeHashesDB, state.db`versionsDB
    ensures state.db.Valid()
    ensures ok ==> |old(state.states)| > 0
    ensures ok ==> Committed(old(state.states[|state.states| - 1]).overlay, state.db.p, old(state.BaseOf()), state.BaseOf(), true)
  {
    ok := state.Commit();
  }

  /**
   * The steps whose handle is a function of the transaction alone: the
   * transient storage steps, the steps that end a frame and the steps that
   * start a create or a call.
   */
  predicate HasTxEffect(d: Data)
  {
    d.DataError? || d.DataStop? || d.DataReturn? || d.DataRevert? || d.DataTLoad? || d.DataTStore?
    || d.DataSelfdestruct? || d.DataSelfdestruct6780? || d.DataCreateStart? || d.DataCreate2Start? || d.DataCallStart?
  }

  /** What such a step does to the transaction: the new transaction, or the failure its handle panics with. */
  function TxEffect(p: Prims, base: Base, t: Tx, d: Data): Result<Tx>
    requires HasTxEffect(d)
  {
    if d.DataError? then (if d.reverted then RevertTx(t, []) else ReturnTx(t, p, [], []))
    else if d.DataStop? then ReturnTx(t, p, [], [])
    else if d.DataReturn? then ReturnedTx(t, p, d.offset, d.size, d.returned, false)
    else if d.DataRevert? then ReturnedTx(t, p, d.offset, d.size, [], true)
    else if d.DataTLoad? then
      (var r := GetTransientTx(t, p, d.slot);
       if r.Fail? then Fail(r.msg)
       else
         var f := TLoadFrame(p, CurFrame(t).value, r.value.value);
         if f.Fail? then Fail(f.msg) else UpdateFrameTx(r.value.t, f.value))
    else if d.DataTStore? then TStoreTx(t, d.slot)
    else if d.DataSelfdestruct? then SelfdestructedTx(t, p, false)
    else if d.DataSelfdestruct6780? then SelfdestructedTx(t, p, true)
    else if d.DataCreateStart? then CreatedTx(t, p, base, 3, d.address, d.offset, d.size, d.initcode)
    else if d.DataCreate2Start? then CreatedTx(t, p, base, 4, d.address, d.offset, d.size, d.initcode)
    else if |base.codes| < U64_LIMIT then CalledTx(t, p, base, d.n, d.address, d.codeAddress, d.inOffset, d.inSize)
    else Fail("code store full")
  }

  /**
   * What a frame step does to the transaction: its current frame replaced
   * by `FrameStep` of it, with the return data of the last call.
   */
  function FrameEffect(p: Prims, t: Tx, d: Data): Result<Tx>
    requires IsFrameData(d)
  {
    var f := CurFrame(t);
    if f.Fail? then Fail(f.msg)
    else
      var next := FrameStep(p, d, f.value, t.returndata);
      if next.Fail? then Fail(next.msg) else UpdateFrameTx(t, next.value)
  }

  /** A handle that succeeds exactly when the effect does, and leaves the transaction it gives. */
  predicate Follows(ok: bool, r: Result<Tx>, after: Tx)
  {
    (ok <==> r.Ok?) && (ok ==> after == r.value)
  }

  /**
   * `Data.Handle`: the handle of the step's kind.  `DataStart` is not a
   * step (the transaction starts with `TransactionStart`) and fails here as
   * it panics there.
   */
  method Handle(state: TransactionDB, d: Data) returns (ok: bool)
    requires state.db.Valid()
    modifies state, state.db`formulasWithShorts, state.db`formulas, state.db.shorts
    modifies state.db.logger`written, state.db.logger`context
    ensures state.db.Valid()
    ensures d.DataStart? ==> !ok
    ensures IsFrameData(d) ==> Follows(ok, FrameEffect(state.db.p, old(state.Value()), d), state.Value())
    ensures HasTxEffect(d) ==> Follows(ok, TxEffect(state.db.p, state.BaseOf(), old(state.Value()), d), state.Value())
  {
    if IsFrameData(d) {
      assert !HasTxEffect(d) && !d.DataStart?;
      ok := HandleFrameStep(state, d);
    } else {
      ok := HandleOutOfFrame(state, d);
    }
  }

  /** The frame steps, stated through `FrameEffect`. */
  method HandleFrameStep(state: TransactionDB, d: Data) returns (ok: bool)
    requires IsFrameData(d)
    modifies state`states
    ensures Follows(ok, FrameEffect(state.db.p, old(state.Value()), d), state.Value())
  {
    ok := HandleFrame(state, d);
  }

  /** The steps that are not a frame's own. */
  method HandleOutOfFrame(state: TransactionDB, d: Data) returns (ok: bool)
    requires !IsFrameData(d)
    requires state.db.Valid()
    modifies state, state.db`formulasWithShorts, state.db`formulas, state.db.shorts
    modifies state.db.logger`written, state.db.logger`context
    ensures state.db.Valid()
    ensures d.DataStart? ==> !ok
    ensures HasTxEffect(d) ==> Follows(ok, TxEffect(state.db.p, state.BaseOf(), old(state.Value()), d), state.Value())
  {
    if d.DataStart? {
      ok := false;
    } else if HasTxEffect(d) {
      ok := HandleEffect(state, d);
    } else {
      ok := HandleOther(state, d);
    }
  }

  /** The steps with an effect on the transaction alone. */
  method HandleEffect(state: TransactionDB, d: Data) returns (ok: bool)
    requires HasTxEffect(d)
    requires state.db.Valid()
    modifies state, state.db`formulasWithShorts, state.db`formulas, state.db.shorts
    modifies state.db.logger`written, state.db.logger`context
    ensures state.db.Valid()
    ensures Follows(ok, TxEffect(state.db.p, state.BaseOf(), old(state.Value()), d), state.Value())
  {
    if d.DataError? || d.DataStop? || d.DataReturn? || d.DataRevert? {
      ok := HandleEnds(state, d);
    } else if d.DataTLoad? || d.DataTStore? {
      ok := HandleTransient(state, d);
    } else if d.DataSelfdestruct? || d.DataSelfdestruct6780? {
      ok := HandleSelfdestructs(state, d);
    } else {
      ok := HandleStarts(state, d);
    }
  }

  /** The error, STOP, RETURN and REVERT steps. */
  method HandleEnds(state: TransactionDB, d: Data) returns (ok: bool)
    requires d.DataError? || d.DataStop? || d.DataReturn? || d.DataRevert?
    requires state.db.Valid()
    modifies state, state.db`formulasWithShorts, state.db`formulas, state.db.shorts
    modifies state.db.logger`written, state.db.logger`context
    ensures state.db.Valid()
    ensures Follows(ok, TxEffect(state.db.p, state.BaseOf(), old(state.Value()), d), state.Value())
  {
    if d.DataError? {
      ok := HandleError(state, d.reverted);
    } else if d.DataStop? {
      ok := HandleError(state, false);
    } else if d.DataReturn? {
      ok := HandleReturned(state, d.offset, d.size, d.returned, false);
    } else {
      ok := HandleReturned(state, d.offset, d.size, [], true);
    }
  }

  /** The transient storage steps. */
  method HandleTransient(state: TransactionDB, d: Data) returns (ok: bool)
    requires d.DataTLoad? || d.DataTStore?
    requires state.db.Valid()
    modifies state, state.db`formulasWithShorts, state.db`formulas, state.db.shorts
    modifies state.db.logger`written, state.db.logger`context
    ensures state.db.Valid()
    ensures Follows(ok, TxEffect(state.db.p, state.BaseOf(), old(state.Value()), d), state.Value())
  {
    if d.DataTLoad? {
      ok := HandleTLoad(state, d.slot);
    } else {
      ok := HandleTStore(state, d.slot);
    }
  }

  /** The two selfdestructs; the second is the one of EIP-6780. */
  method HandleSelfdestructs(state: TransactionDB, d: Data) returns (ok: bool)
    requires d.DataSelfdestruct? || d.DataSelfdestruct6780?
    requires state.db.Valid()
    modifies state, state.db`formulasWithShorts, state.db`formulas, state.db.shorts
    modifies state.db.logger`written, state.db.logger`context
    ensures state.db.Valid()
    ensures Follows(ok, TxEffect(state.db.p, state.BaseOf(), old(state.Value()), d), state.Value())
  {
    ok := HandleSelfdestruct(state, d.DataSelfdestruct6780?);
  }

  /** The steps that start a create or a call. */
  method HandleStarts(state: TransactionDB, d: Data) returns (ok: bool)
    requires d.DataCreateStart? || d.DataCreate2Start? || d.DataCallStart?
    requires state.db.Valid()
    modifies state, state.db`formulasWithShorts, state.db`formulas, state.db.shorts
    modifies state.db.logger`written, state.db.logger`context
    ensures state.db.Valid()
    ensures Follows(ok, TxEffect(state.db.p, state.BaseOf(), old(state.Value()), d), state.Value())
  {
    if d.DataCreateStart? {
      ok := HandleCreateStart(state, 3, d.address, d.offset, d.size, d.initcode);
    } else if d.DataCreate2Start? {
      ok := HandleCreateStart(state, 4, d.address, d.offset, d.size, d.initcode);
    } else {
      ok := HandleCallStart(state, d.n, d.address, d.codeAddress, d.inOffset, d.inSize);
    }
  }

  /** The steps that push a formula of the environment or end a create or a call. */
  method HandleOther(state: TransactionDB, d: Data) returns (ok: bool)
    requires !IsFrameData(d) && !d.DataStart? && !HasTxEffect(d)
    requires state.db.Valid()
    modifies state, state.db`formulasWithShorts, state.db`formulas, state.db.shorts
    modifies state.db.logger`written, state.db.logger`context
    ensures state.db.Valid()
  {
    if d.DataConstant? || d.DataConstant20? || d.DataKeccak? || d.DataSLoad? || d.DataSStore? {
      ok := HandleValues(state, d);
    } else if d.DataOne? || d.DataTwo? || d.DataThree? || d.DataCodeSize? || d.DataCalldataSize? || d.DataReturndataSize? {
      ok := HandleArithAndSizes(state, d);
    } else if d.DataExtCodeSize? || d.DataExtCodeHash? || d.DataExtCodeCopy? || d.DataLog?
           || d.DataBalance? || d.DataSelfBalance? || d.DataBlockHash? || d.DataBlobHash? {
      ok := HandleAccounts(state, d);
    } else {
      ok := HandleFrameChange(state, d);
    }
  }

  /** The constant, Keccak and storage steps. */
  method HandleValues(state: TransactionDB, d: Data) returns (ok: bool)
    requires d.DataConstant? || d.DataConstant20? || d.DataKeccak? || d.DataSLoad? || d.DataSStore?
    requires state.db.Valid()
    modifies state, state.db`formulasWithShorts, state.db`formulas, state.db.shorts
    modifies state.db.logger`written, state.db.logger`context
    ensures state.db.Valid()
  {
    if d.DataConstant? {
      ok := HandleConstant(state, d.op, Bytes32(d.value));
    } else if d.DataConstant20? {
      ok := HandleConstant(state, d.op, Bytes32(d.value)[12..]);
    } else if d.DataKeccak? {
      ok := HandleKeccak(state, d.result, d.offset, d.size);
    } else if d.DataSLoad? {
      ok := HandleSLoad(state, d.slot, d.value);
    } else {
      ok := HandleSStore(state, d.slot, d.value);
    }
  }

  /** The arithmetic steps and the sizes of the frame's code, calldata and return data. */
  method HandleArithAndSizes(state: TransactionDB, d: Data) returns (ok: bool)
    requires d.DataOne? || d.DataTwo? || d.DataThree? || d.DataCodeSize? || d.DataCalldataSize? || d.DataReturndataSize?
    requires state.db.Valid()
    modifies state, state.db`formulasWithShorts, state.db`formulas, state.db.shorts
    modifies state.db.logger`written, state.db.logger`context
    ensures state.db.Valid()
  {
    if d.DataOne? {
      ok := HandleArith(state, 1, d.op, d.value);
    } else if d.DataTwo? {
      ok := HandleArith(state, 2, d.op, d.value);
    } else if d.DataThree? {
      ok := HandleArith(state, 3, d.op, d.value);
    } else if d.DataCodeSize? {
      ok := HandleSize(state, OfCode, d.codeSize);
    } else if d.DataCalldataSize? {
      ok := HandleSize(state, OfCalldata, d.calldataSize);
    } else {
      ok := HandleSize(state, OfReturndata, d.returndataSize);
    }
  }

  /** The steps on another account's code, the logs, the balances and the block and blob hashes. */
  method HandleAccounts(state: TransactionDB, d: Data) returns (ok: bool)
    requires d.DataExtCodeSize? || d.DataExtCodeHash? || d.DataExtCodeCopy? || d.DataLog?
             || d.DataBalance? || d.DataSelfBalance? || d.DataBlockHash? || d.DataBlobHash?
    requires state.db.Valid()
    modifies state, state.db`formulasWithShorts, state.db`formulas, state.db.shorts
    modifies state.db.logger`written, state.db.logger`context
    ensures state.db.Valid()
  {
    if d.DataExtCodeSize? {
      ok := HandleExtCode(state, OP_CODE_SIZE, d.address, Bytes32(d.extCodeSize));
    } else if d.DataExtCodeHash? {
      ok := HandleExtCode(state, OP_CODE_KECCAK, d.address, d.hash);
    } else if d.DataExtCodeCopy? {
      ok := HandleExtCodeCopy(state, d.address, d.memoryOffset, d.codeOffset, d.length);
    } else if d.DataLog? {
      ok := HandleLog(state, d.offset, d.size, d.topicsNum);
    } else if d.DataBalance? {
      ok := HandleBalance(state, d.balance);
    } else if d.DataSelfBalance? {
      ok := HandleSelfBalance(state, d.balance);
    } else if d.DataBlockHash? {
      ok := HandleHashOf(state, OP_BLOCK_HASH, d.hash);
    } else {
      ok := HandleHashOf(state, OP_BLOB_HASH, d.hash);
    }
  }

  /** The ends of a create or a call, and the precompiles. */
  method HandleFrameChange(state: TransactionDB, d: Data) returns (ok: bool)
    requires !IsFrameData(d) && !d.DataStart? && !HasTxEffect(d)
    requires !(d.DataConstant? || d.DataConstant20? || d.DataKeccak? || d.DataSLoad? || d.DataSStore?)
    requires !(d.DataOne? || d.DataTwo? || d.DataThree? || d.DataCodeSize? || d.DataCalldataSize? || d.DataReturndataSize?)
    requires !(d.DataExtCodeSize? || d.DataExtCodeHash? || d.DataExtCodeCopy? || d.DataLog?
               || d.DataBalance? || d.DataSelfBalance? || d.DataBlockHash? || d.DataBlobHash?)
    requires state.db.Valid()
    modifies state, state.db`formulasWithShorts, state.db`formulas, state.db.shorts
    modifies state.db.logger`written, state.db.logger`context
    ensures state.db.Valid()
  {
    if d.DataCreateEnd? {
      ok := HandleCreateEnd(state, OP_CREATE_ADDR, d.address);
    } else if d.DataCreate2End? {
      ok := HandleCreateEnd(state, OP_CREATE2_ADDR, d.address);
    } else if d.DataCallEnd? {
      ok := HandleCallEnd(state, d.success, d.returnOffset, d.returnSize);
    } else {
      ok := HandlePrecompile(state, d.pd);
    }
  }
}
