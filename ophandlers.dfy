// The per-opcode handlers (tracer/dep_tracer/op_handlers.go): which handler
// each EVM instruction byte is registered to, what its `Before` reads off
// the EVM's stack and memory before the instruction runs, what its `After`
// reads off the stack after it ran, and what its `Exit` adds when a call or
// create it opened returns.  A hook's effect is the list of `Data` steps it
// hands to `Handle`, in order, with what the handler keeps for later.
module OpHandlers {
  import opened Common
  import opened Opcodes
  import opened CryptoHelpers
  import opened Handles

  // ---- directions ----

  const DIRECTION_CALL: int := 0
  const DIRECTION_RETURN: int := 1
  const DIRECTION_NONE: int := 2

  /**
   * The handler types.  Handlers whose only difference is the formula
   * opcode they record share a constructor carrying it: the arithmetic
   * handlers by operand count, the constants by their 32- or 20-byte
   * value, and `JUMP`/`JUMPI`/`JUMPDEST` by the entries they drop.  The
   * four call handlers differ in whether a value word is on the stack and
   * whether the callee runs as the current account.
   */
  datatype Kind =
    | StopHandler | ReturnHandler | RevertHandler | SelfdestructHandler
    | UnaryHandler(fop: Byte) | BinaryHandler(fop: Byte) | TernaryHandler(fop: Byte)
    | ConstantHandler(fop: Byte) | Constant20Handler(fop: Byte) | PrevrandaoOrDifficultyHandler
    | BalanceHandler | SelfBalanceHandler | BlockHashHandler | BlobHashHandler
    | ReturnDataSizeHandler | CodeSizeHandler
    | PushHandler | DupHandler | SwapHandler | LogHandler
    | MStoreHandler | MStore8Handler | MLoadHandler | ByteHandler | EmptyHandler(n: int) | PopHandler
    | CodeCopyHandler | ExtCodeSizeHandler | ExtCodeHashHandler | ExtCodeCopyHandler
    | SLoadHandler | SStoreHandler | TLoadHandler | TStoreHandler | KeccakHandler
    | CallDataSizeHandler | CallDataCopyHandler | CallDataLoadHandler | ReturnDataCopyHandler | MCopyHandler
    | CallFamilyHandler(withValue: bool, keepsAddress: bool)
    | CreateHandler | Create2Handler

  // ---- the registry ----

  /** The stop and arithmetic handlers (0x00-0x0b). */
  function StopArithmetic(op: Byte): Option<Kind>
  {
    if op == STOP then Some(StopHandler)
    else if op == ADD then Some(BinaryHandler(OP_ADD))
    else if op == MUL then Some(BinaryHandler(OP_MUL))
    else if op == SUB then Some(BinaryHandler(OP_SUB))
    else if op == DIV then Some(BinaryHandler(OP_DIV))
    else if op == SDIV then Some(BinaryHandler(OP_SDIV))
    else if op == MOD then Some(BinaryHandler(OP_MOD))
    else if op == SMOD then Some(BinaryHandler(OP_SMOD))
    else if op == ADDMOD then Some(TernaryHandler(OP_ADD_MOD))
    else if op == MULMOD then Some(TernaryHandler(OP_MUL_MOD))
    else if op == EXP then Some(BinaryHandler(OP_EXP))
    else if op == SIGNEXTEND then Some(BinaryHandler(OP_SIGN_EXTEND))
    else None
  }

  /** The comparison handlers (0x10-0x15). */
  function Comparison(op: Byte): Option<Kind>
  {
    if op == LT then Some(BinaryHandler(OP_LT))
    else if op == GT then Some(BinaryHandler(OP_GT))
    else if op == SLT then Some(BinaryHandler(OP_SLT))
    else if op == SGT then Some(BinaryHandler(OP_SGT))
    else if op == EQ then Some(BinaryHandler(OP_EQ))
    else if op == ISZERO then Some(UnaryHandler(OP_IS_ZERO))
    else None
  }

  /** The bitwise handlers (0x16-0x1d). */
  function Bitwise(op: Byte): Option<Kind>
  {
    if op == AND then Some(BinaryHandler(OP_AND))
    else if op == OR then Some(BinaryHandler(OP_OR))
    else if op == XOR then Some(BinaryHandler(OP_XOR))
    else if op == NOT then Some(UnaryHandler(OP_NOT))
    else if op == BYTE then Some(ByteHandler)
    else if op == SHL then Some(BinaryHandler(OP_SHL))
    else if op == SHR then Some(BinaryHandler(OP_SHR))
    else if op == SAR then Some(BinaryHandler(OP_SAR))
    else None
  }

  /** The keccak, account and calldata handlers (0x20-0x37). */
  function Environment(op: Byte): Option<Kind>
  {
    if op == KECCAK256 then Some(KeccakHandler)
    else if op == ADDRESS then Some(Constant20Handler(OP_ADDRESS))
    else if op == BALANCE then Some(BalanceHandler)
    else if op == ORIGIN then Some(Constant20Handler(OP_ORIGIN))
    else if op == CALLER then Some(Constant20Handler(OP_CALLER))
    else if op == CALLVALUE then Some(ConstantHandler(OP_CALL_VALUE))
    else if op == CALLDATALOAD then Some(CallDataLoadHandler)
    else if op == CALLDATASIZE then Some(CallDataSizeHandler)
    else if op == CALLDATACOPY then Some(CallDataCopyHandler)
    else None
  }

  /** The code and return data handlers (0x38-0x3f). */
  function Code(op: Byte): Option<Kind>
  {
    if op == CODESIZE then Some(CodeSizeHandler)
    else if op == CODECOPY then Some(CodeCopyHandler)
    else if op == GASPRICE then Some(ConstantHandler(0))
    else if op == EXTCODESIZE then Some(ExtCodeSizeHandler)
    else if op == EXTCODECOPY then Some(ExtCodeCopyHandler)
    else if op == RETURNDATASIZE then Some(ReturnDataSizeHandler)
    else if op == RETURNDATACOPY then Some(ReturnDataCopyHandler)
    else if op == EXTCODEHASH then Some(ExtCodeHashHandler)
    else None
  }

  /** The block handlers (0x40-0x4a). */
  function Block(op: Byte): Option<Kind>
  {
    if op == BLOCKHASH then Some(BlockHashHandler)
    else if op == COINBASE then Some(Constant20Handler(OP_COINBASE))
    else if op == TIMESTAMP then Some(ConstantHandler(OP_TIMESTAMP))
    else if op == NUMBER then Some(ConstantHandler(OP_NUMBER))
    else if op == PREVRANDAO then Some(PrevrandaoOrDifficultyHandler)
    else if op == GASLIMIT then Some(ConstantHandler(OP_GAS_LIMIT))
    else if op == CHAINID then Some(ConstantHandler(OP_CHAIN_ID))
    else if op == SELFBALANCE then Some(SelfBalanceHandler)
    else if op == BASEFEE then Some(ConstantHandler(OP_BASE_FEE))
    else if op == BLOBHASH then Some(BlobHashHandler)
    else if op == BLOBBASEFEE then Some(ConstantHandler(OP_BLOB_BASE_FEE))
    else None
  }

  /** The stack, memory and storage handlers (0x50-0x55). */
  function MemoryStorage(op: Byte): Option<Kind>
  {
    if op == POP then Some(PopHandler)
    else if op == MLOAD then Some(MLoadHandler)
    else if op == MSTORE then Some(MStoreHandler)
    else if op == SLOAD then Some(SLoadHandler)
    else if op == SSTORE then Some(SStoreHandler)
    else None
  }

  /** The flow, transient storage and memory copy handlers (0x56-0x5e). */
  function Flow(op: Byte): Option<Kind>
  {
    if op == JUMP then Some(EmptyHandler(1))
    else if op == JUMPI then Some(EmptyHandler(2))
    else if op == PC then Some(ConstantHandler(OP_PC))
    else if op == MSIZE then Some(ConstantHandler(OP_MSIZE))
    else if op == GAS then Some(ConstantHandler(OP_GAS))
    else if op == JUMPDEST then Some(EmptyHandler(0))
    else if op == TLOAD then Some(TLoadHandler)
    else if op == TSTORE then Some(TStoreHandler)
    else if op == MCOPY then Some(MCopyHandler)
    else None
  }

  /** The system handlers (0xf0-0xff). */
  function System(op: Byte): Option<Kind>
  {
    if op == CREATE then Some(CreateHandler)
    else if op == CALL then Some(CallFamilyHandler(true, false))
    else if op == CALLCODE then Some(CallFamilyHandler(true, true))
    else if op == RETURN then Some(ReturnHandler)
    else if op == DELEGATECALL then Some(CallFamilyHandler(false, true))
    else if op == CREATE2 then Some(Create2Handler)
    else if op == STATICCALL then Some(CallFamilyHandler(false, false))
    else if op == REVERT then Some(RevertHandler)
    else if op == SELFDESTRUCT then Some(SelfdestructHandler)
    else None
  }

  /** The handlers `NewOPHandlers` registers one opcode at a time, as written: no MSTORE8, and GASPRICE's constant with opcode 0. */
  function SingleAsWritten(op: Byte): Option<Kind>
  {
    if op <= 0x0b then StopArithmetic(op)
    else if op <= 0x15 then Comparison(op)
    else if op <= 0x1d then Bitwise(op)
    else if op <= 0x37 then Environment(op)
    else if op <= 0x3f then Code(op)
    else if op <= 0x4a then Block(op)
    else if op <= 0x55 then MemoryStorage(op)
    else if op <= 0x5e then Flow(op)
    else System(op)
  }

  /** The single registrations with MSTORE8 registered and GASPRICE's constant recorded as `GASPRICE`. */
  function Single(op: Byte): Option<Kind>
  {
    if op == MSTORE8 then Some(MStore8Handler)
    else if op == GASPRICE then Some(ConstantHandler(OP_GAS_PRICE))
    else SingleAsWritten(op)
  }

  /** The handler families: one shared handler for PUSH0-PUSH32, DUP1-DUP16, SWAP1-SWAP16 and LOG0-LOG4. */
  function Family(op: Byte): Option<Kind>
  {
    if PUSH0 <= op <= PUSH32 then Some(PushHandler)
    else if DUP1 <= op <= DUP16 then Some(DupHandler)
    else if SWAP1 <= op <= SWAP16 then Some(SwapHandler)
    else if LOG0 <= op <= LOG4 then Some(LogHandler)
    else None
  }

  /** The handler registered for `op` as `NewOPHandlers` is written. */
  function HandlerAsWritten(op: Byte): Option<Kind>
  {
    if Family(op).Some? then Family(op) else SingleAsWritten(op)
  }

  /** The handler registered for `op`, MSTORE8 and GASPRICE corrected. */
  function HandlerFor(op: Byte): Option<Kind>
  {
    if Family(op).Some? then Family(op) else Single(op)
  }

  /** `NewOPHandlers`: every single handler's `Register`, then the four family loops. */
  method NewOPHandlers() returns (handlers: map<Byte, Kind>)
    ensures forall op: Byte :: (op in handlers <==> HandlerFor(op).Some?) && (op in handlers ==> handlers[op] == HandlerFor(op).value)
  {
    handlers := map op: Byte | 0 <= op < 256 && Single(op).Some? :: Single(op).value;
    handlers := RegisterRange(handlers, PUSH0, PUSH32, PushHandler);
    handlers := RegisterRange(handlers, DUP1, DUP16, DupHandler);
    handlers := RegisterRange(handlers, SWAP1, SWAP16, SwapHandler);
    handlers := RegisterRange(handlers, LOG0, LOG4, LogHandler);
  }

  /** A family `Register`: `for i := lo; i <= hi; i++ { handlers[byte(i)] = oh }`. */
  method RegisterRange(h0: map<Byte, Kind>, lo: Byte, hi: Byte, k: Kind) returns (handlers: map<Byte, Kind>)
    requires lo <= hi
    ensures forall op: Byte :: (op in handlers <==> op in h0 || lo <= op <= hi)
    ensures forall op: Byte :: op in handlers ==> handlers[op] == if lo <= op <= hi then k else h0[op]
  {
    handlers := h0;
    var i := lo;
    while i <= hi
      invariant lo <= i <= hi + 1
      invariant forall op: Byte :: (op in handlers <==> op in h0 || lo <= op < i)
      invariant forall op: Byte :: op in handlers ==> handlers[op] == if lo <= op < i then k else h0[op]
    {
      handlers := handlers[i := k];
      i := i + 1;
    }
  }

  // ---- the EVM's own stack arity, as the reference ----

  /** The words instruction `op` takes off the EVM stack. */
  function EvmPops(op: Byte): nat
  {
    if PUSH0 <= op <= PUSH32 then 0
    else if DUP1 <= op <= DUP16 then op - DUP1 + 1
    else if SWAP1 <= op <= SWAP16 then op - SWAP1 + 2
    else if LOG0 <= op <= LOG4 then op - LOG0 + 2
    else if (op == ADDMOD || op == MULMOD || op == CALLDATACOPY || op == CODECOPY || op == RETURNDATACOPY || op == MCOPY || op == CREATE) then 3
    else if (op == EXTCODECOPY || op == CREATE2) then 4
    else if (op == CALL || op == CALLCODE) then 7
    else if (op == DELEGATECALL || op == STATICCALL) then 6
    else if (op == ISZERO || op == NOT || op == BALANCE || op == CALLDATALOAD || op == EXTCODESIZE || op == EXTCODEHASH || op == BLOCKHASH || op == BLOBHASH || op == POP || op == MLOAD || op == SLOAD || op == JUMP || op == TLOAD || op == SELFDESTRUCT) then 1
    else if (op == ADD || op == MUL || op == SUB || op == DIV || op == SDIV || op == MOD || op == SMOD || op == EXP || op == SIGNEXTEND || op == LT || op == GT || op == SLT || op == SGT || op == EQ || op == AND || op == OR || op == XOR || op == BYTE || op == SHL || op == SHR || op == SAR || op == KECCAK256 || op == MSTORE || op == MSTORE8 || op == SSTORE || op == JUMPI || op == TSTORE || op == RETURN || op == REVERT) then 2
    else 0
  }

  /** The words instruction `op` leaves on the EVM stack in their place. */
  function EvmPushes(op: Byte): nat
  {
    if DUP1 <= op <= DUP16 then op - DUP1 + 2
    else if SWAP1 <= op <= SWAP16 then op - SWAP1 + 2
    else if LOG0 <= op <= LOG4 then 0
    else if (op == STOP || op == CALLDATACOPY || op == CODECOPY || op == EXTCODECOPY || op == RETURNDATACOPY || op == POP || op == MSTORE || op == MSTORE8 || op == SSTORE || op == JUMP || op == JUMPI || op == JUMPDEST || op == TSTORE || op == MCOPY || op == RETURN || op == REVERT || op == INVALID || op == SELFDESTRUCT) then 0
    else 1
  }

  /** What a list of steps does to the height of the formula stack. */
  function Delta(ds: seq<Data>): int
  {
    if ds == [] then 0 else Pushes(ds[0]) - Pops(ds[0]) + Delta(ds[1..])
  }

  /** As written, MSTORE8 has no handler: the step is ignored and the formula stack keeps the two entries the EVM pops. */
  lemma MStore8Unregistered()
    ensures HandlerAsWritten(MSTORE8) == None && HandlerFor(MSTORE8) == Some(MStore8Handler)
    ensures EvmPops(MSTORE8) == 2 && Pops(DataMStore8(0)) == 2
  {
  }

  /** As written, GASPRICE's constant is recorded with the init-zero formula's opcode; corrected, with `GASPRICE`'s own. */
  lemma GasPriceOpcode()
    ensures HandlerAsWritten(GASPRICE) == Some(ConstantHandler(OP_INIT_ZERO))
    ensures HandlerFor(GASPRICE) == Some(ConstantHandler(OP_GAS_PRICE)) && OP_GAS_PRICE != OP_INIT_ZERO
  {
  }

  /** The corrections touch only MSTORE8 and GASPRICE. */
  lemma CorrectionsOnly(op: Byte)
    requires op != MSTORE8 && op != GASPRICE
    ensures HandlerFor(op) == HandlerAsWritten(op)
  {
  }

  // ---- reading the EVM ----

  /** `stack[stackSize-i]`: the `i`-th word from the top (1 is the top). */
  function Top(stack: seq<Word>, i: nat): Word
    requires 1 <= i <= |stack|
  {
    stack[|stack| - i]
  }

  /** The state-database reads a `Before` makes: they are what the bridges prefetch. */
  datatype Query = GetNonce(addr: Address) | GetCode(addr: Address)

  /** What a hook reads besides the EVM's stack and memory: the fork flags and the state database's nonces. */
  datatype Env = Env(isSelfdestruct6780: bool, isRandom: bool, nonceOf: Address -> U64, keccak: Hasher)

  /**
   * What `Before` did: the direction it returned, the steps it handled
   * there and then, what the handler keeps for its `After` or `Exit` (its
   * `data` or `DataEnd` field; handlers without one keep nothing) and the
   * state-database reads it made.
   */
  datatype Started = Started(direction: int, handled: seq<Data>, saved: Option<Data>, queries: seq<Query>)

  /**
   * The bytes `RETURN`, `CREATE` and `CREATE2` record, as written:
   * `memory[offset:min(offset+size, len)]` (the sum wraps as `uint64`)
   * padded with the missing zeros.  The slice panics when `offset` is past
   * its end.
   */
  function MemoryResultAsWritten(memory: seq<Byte>, offset: U64, size: U64): (r: Result<seq<Byte>>)
  {
    var dest := Add64(offset, size);
    var extra := if dest > |memory| then dest - |memory| else 0;
    var end := if dest > |memory| then |memory| else dest;
    if offset > end then Fail("slice bounds out of range") else Ok(memory[offset..end] + Zeros(extra))
  }

  /** The intended bytes: `size` bytes of memory from `offset`, zero past its end. */
  function MemoryResult(memory: seq<Byte>, offset: U64, size: U64): (r: seq<Byte>)
    ensures |r| == size
    ensures forall i :: 0 <= i < size ==> r[i] == if offset + i < |memory| then memory[offset + i] else 0
  {
    seq(size, (i: nat) => if offset + i < |memory| then memory[offset + i] else 0)
  }

  /** Where the written slice does not panic and the sum does not wrap, it is the intended one. */
  lemma MemoryResultAgrees(memory: seq<Byte>, offset: U64, size: U64)
    requires offset <= |memory| && offset + size < U64_LIMIT
    ensures MemoryResultAsWritten(memory, offset, size) == Ok(MemoryResult(memory, offset, size))
  {
    var dest := offset + size;
    var extra := if dest > |memory| then dest - |memory| else 0;
    var end := if dest > |memory| then |memory| else dest;
    assert Add64(offset, size) == dest;
    var r := memory[offset..end] + Zeros(extra);
    var m := MemoryResult(memory, offset, size);
    assert |r| == size;
    forall i | 0 <= i < size
      ensures r[i] == m[i]
    {
      if offset + i < end {
        assert r[i] == memory[offset + i];
      } else {
        assert r[i] == Zeros(extra)[offset + i - end];
      }
    }
    assert r == m;
  }

  /** A zero-size `RETURN` at an offset past the end of memory, which the EVM allows, panics as written. */
  lemma ZeroSizeReturnPanics()
    ensures MemoryResultAsWritten([], 1, 0).Fail? && MemoryResult([], 1, 0) == []
  {
  }

  /** The stack words `Before` reads: past their count it indexes out of range. */
  function Needs(k: Kind): nat
  {
    match k
    case MStoreHandler | MStore8Handler | MLoadHandler | ByteHandler | ExtCodeSizeHandler | ExtCodeHashHandler
       | SLoadHandler | TLoadHandler | TStoreHandler | CallDataLoadHandler => 1
    case RevertHandler | ReturnHandler | SStoreHandler | KeccakHandler | LogHandler => 2
    case CodeCopyHandler | CallDataCopyHandler | ReturnDataCopyHandler | MCopyHandler | CreateHandler => 3
    case ExtCodeCopyHandler | Create2Handler => 4
    case CallFamilyHandler(withValue, _) => if withValue then 7 else 6
    case _ => 0
  }

  /** The direction each handler's `Before` returns. */
  function DirectionOf(k: Kind): int
  {
    match k
    case StopHandler | ReturnHandler | RevertHandler | SelfdestructHandler => DIRECTION_RETURN
    case CallFamilyHandler(_, _) | CreateHandler | Create2Handler => DIRECTION_CALL
    case _ => DIRECTION_NONE
  }

  /**
   * `Before`: the operands a handler takes off the stack before the
   * instruction runs (`Uint64()` keeps the low 64 bits; the code and data
   * offsets of the copies and of `CALLDATALOAD` are clamped), and the steps
   * it handles at once for the instructions that leave the frame.
   */
  function Before(k: Kind, env: Env, stack: seq<Word>, memory: seq<Byte>, pc: U64, op: Byte, addr: Address): (r: Result<Started>)
    ensures r.Ok? <==> Needs(k) <= |stack|
    ensures r.Ok? ==> r.value.direction == DirectionOf(k)
  {
    if |stack| < Needs(k) then Fail("index out of range")
    else if DirectionOf(k) == DIRECTION_RETURN then Ok(StartReturn(k, env, stack, memory))
    else if DirectionOf(k) == DIRECTION_CALL then Ok(StartCall(k, env, stack, memory, addr))
    else Ok(Started(DIRECTION_NONE, [], Some(Saved(k, stack, pc, op)), ReadsOf(k, stack)))
  }

  /** The step a handler that stays in the frame keeps for its `After`, with the result fields still zero. */
  function Saved(k: Kind, stack: seq<Word>, pc: U64, op: Byte): (d: Data)
    requires Needs(k) <= |stack| && DirectionOf(k) == DIRECTION_NONE
  {
    match k
    case PushHandler => DataPush(pc, Sub64(op, PUSH0))
    case DupHandler => DataDup(1 + op - DUP1)
    case SwapHandler => DataSwap(2 + op - SWAP1)
    case LogHandler => DataLog(LowU64(Top(stack, 1)), LowU64(Top(stack, 2)), op - LOG0)
    case MStoreHandler => DataMStore(LowU64(Top(stack, 1)))
    case MStore8Handler => DataMStore8(LowU64(Top(stack, 1)))
    case MLoadHandler => DataMLoad(LowU64(Top(stack, 1)))
    case ByteHandler => DataByte(Top(stack, 1))
    case EmptyHandler(n) => DataEmpty(n)
    case PopHandler => DataPop
    case CodeCopyHandler => DataCodeCopy(LowU64(Top(stack, 1)), ClampU64(Top(stack, 2)), LowU64(Top(stack, 3)))
    case CallDataCopyHandler => DataCalldataCopy(LowU64(Top(stack, 1)), ClampU64(Top(stack, 2)), LowU64(Top(stack, 3)))
    case CallDataLoadHandler => DataCalldataLoad(ClampU64(Top(stack, 1)))
    case ReturnDataCopyHandler => DataReturndataCopy(LowU64(Top(stack, 1)), LowU64(Top(stack, 2)), LowU64(Top(stack, 3)))
    case MCopyHandler => DataMCopy(LowU64(Top(stack, 1)), LowU64(Top(stack, 2)), LowU64(Top(stack, 3)))
    case _ => SavedState(k, stack)
  }

  /** `Saved` for the handlers that read the state: code, storage, transient storage and the hash of memory. */
  function SavedState(k: Kind, stack: seq<Word>): (d: Data)
    requires Needs(k) <= |stack|
  {
    match k
    case ExtCodeSizeHandler => DataExtCodeSize(WordToAddress(Top(stack, 1)), 0)
    case ExtCodeHashHandler => DataExtCodeHash(WordToAddress(Top(stack, 1)), ZERO_HASH)
    case ExtCodeCopyHandler =>
      DataExtCodeCopy(WordToAddress(Top(stack, 1)), LowU64(Top(stack, 2)), ClampU64(Top(stack, 3)), LowU64(Top(stack, 4)))
    case SLoadHandler => DataSLoad(Top(stack, 1), 0)
    case SStoreHandler => DataSStore(Top(stack, 1), Top(stack, 2))
    case TLoadHandler => DataTLoad(Top(stack, 1))
    case TStoreHandler => DataTStore(Top(stack, 1))
    case KeccakHandler => DataKeccak(ZERO_HASH, LowU64(Top(stack, 1)), LowU64(Top(stack, 2)))
    case CallDataSizeHandler => DataCalldataSize(0)
    case _ => DataEmpty(0)
  }

  /** The code `Before` asks the state database for: the account an `EXTCODE*` names. */
  function ReadsOf(k: Kind, stack: seq<Word>): (qs: seq<Query>)
    requires Needs(k) <= |stack|
  {
    if k.ExtCodeSizeHandler? || k.ExtCodeHashHandler? || k.ExtCodeCopyHandler? then [GetCode(WordToAddress(Top(stack, 1)))]
    else []
  }

  /** `Before` of the handlers that return from the frame: the step is handled at once. */
  function StartReturn(k: Kind, env: Env, stack: seq<Word>, memory: seq<Byte>): (s: Started)
    requires Needs(k) <= |stack| && DirectionOf(k) == DIRECTION_RETURN
    ensures s.direction == DIRECTION_RETURN && s.saved == None && s.queries == [] && |s.handled| == 1
  {
    var d := match k
      case RevertHandler => DataRevert(LowU64(Top(stack, 1)), LowU64(Top(stack, 2)))
      case ReturnHandler =>
        var offset := LowU64(Top(stack, 1));
        var size := LowU64(Top(stack, 2));
        DataReturn(offset, size, MemoryResult(memory, offset, size))
      case SelfdestructHandler => if env.isSelfdestruct6780 then DataSelfdestruct6780 else DataSelfdestruct
      case _ => DataStop;
    Started(DIRECTION_RETURN, [d], None, [])
  }

  /**
   * `Before` of the handlers that open a frame: the start step is handled at
   * once, and the end step is kept for `Exit`.  A create's new address is
   * derived from the current account's nonce (CREATE) or from the salt and
   * the initcode's hash (CREATE2).
   */
  function StartCall(k: Kind, env: Env, stack: seq<Word>, memory: seq<Byte>, addr: Address): (s: Started)
    requires Needs(k) <= |stack| && DirectionOf(k) == DIRECTION_CALL
    ensures s.direction == DIRECTION_CALL && s.saved.Some? && |s.handled| == 1
    ensures Pops(s.handled[0]) == Needs(k) && Pushes(s.handled[0]) == 0
    ensures EndsCall(k, s.saved.value)
  {
    var s := match k
      case CallFamilyHandler(withValue, keepsAddress) => StartCallFamily(withValue, keepsAddress, stack, addr)
      case CreateHandler => StartCreate(env, stack, memory, addr)
      case Create2Handler => StartCreate2(env, stack, memory, addr);
    FrameStartCounts(s.handled[0]);
    s
  }

  /** What the steps that open a frame pop and push. */
  lemma FrameStartCounts(d: Data)
    requires d.DataCallStart? || d.DataCreateStart? || d.DataCreate2Start?
    ensures Pushes(d) == 0
    ensures d.DataCallStart? ==> Pops(d) == Times(d.n)
    ensures d.DataCreateStart? ==> Pops(d) == 3
    ensures d.DataCreate2Start? ==> Pops(d) == 4
  {
  }

  /** `CALL`, `CALLCODE`, `DELEGATECALL`, `STATICCALL`: the callee's code is the second word, the value (if any) is skipped. */
  function StartCallFamily(withValue: bool, keepsAddress: bool, stack: seq<Word>, addr: Address): (s: Started)
    requires (if withValue then 7 else 6) <= |stack|
    ensures s.direction == DIRECTION_CALL && s.saved.Some? && s.saved.value.DataCallEnd? && |s.handled| == 1
    ensures s.handled[0].DataCallStart? && s.handled[0].n == if withValue then 7 else 6
  {
    var v := if withValue then 1 else 0;
    var target := WordToAddress(Top(stack, 2));
    var start := DataCallStart(6 + v, if keepsAddress then addr else target, target,
                               LowU64(Top(stack, 3 + v)), LowU64(Top(stack, 4 + v)));
    var end := DataCallEnd(false, LowU64(Top(stack, 5 + v)), LowU64(Top(stack, 6 + v)));
    Started(DIRECTION_CALL, [start], Some(end), [GetCode(target)])
  }

  /** `CREATE`: the new account's address is derived from the creator and its nonce. */
  function StartCreate(env: Env, stack: seq<Word>, memory: seq<Byte>, addr: Address): (s: Started)
    requires 3 <= |stack|
    ensures s.direction == DIRECTION_CALL && s.saved.Some? && s.saved.value.DataCreateEnd? && |s.handled| == 1
    ensures s.handled[0].DataCreateStart?
  {
    var newAddr := NewAddress(env, addr);
    var offset := LowU64(Top(stack, 2));
    var size := LowU64(Top(stack, 3));
    Started(DIRECTION_CALL, [DataCreateStart(newAddr, offset, size, MemoryResult(memory, offset, size))],
            Some(DataCreateEnd(newAddr)), [GetNonce(addr)])
  }

  /** `crypto.CreateAddress` of the creator and its current nonce. */
  function NewAddress(env: Env, addr: Address): Address
  {
    env.keccak(CreateEncoding(addr, env.nonceOf(addr)))[12..]
  }

  /** `CREATE2`: the new account's address is derived from the creator, the salt and the initcode's hash. */
  function StartCreate2(env: Env, stack: seq<Word>, memory: seq<Byte>, addr: Address): (s: Started)
    requires 4 <= |stack|
    ensures s.direction == DIRECTION_CALL && s.saved.Some? && s.saved.value.DataCreate2End? && |s.handled| == 1
    ensures s.handled[0].DataCreate2Start?
  {
    var offset := LowU64(Top(stack, 2));
    var size := LowU64(Top(stack, 3));
    var code := MemoryResult(memory, offset, size);
    var newAddr := CreateAddress2(env.keccak, addr, Bytes32(Top(stack, 4)), env.keccak(code));
    Started(DIRECTION_CALL, [DataCreate2Start(newAddr, offset, size, code)], Some(DataCreate2End(newAddr)), [])
  }

  /** Whether `After` reads the top of the stack the instruction left. */
  predicate AfterReadsTop(k: Kind)
  {
    k.UnaryHandler? || k.BinaryHandler? || k.TernaryHandler? || k.ConstantHandler? || k.Constant20Handler?
    || k.PrevrandaoOrDifficultyHandler? || k.BalanceHandler? || k.SelfBalanceHandler? || k.BlockHashHandler?
    || k.BlobHashHandler? || k.ReturnDataSizeHandler? || k.CodeSizeHandler? || k.ExtCodeSizeHandler?
    || k.ExtCodeHashHandler? || k.SLoadHandler? || k.KeccakHandler? || k.CallDataSizeHandler?
  }

  /**
   * `After`: the step the handler hands over once the instruction ran,
   * completing what `Before` kept with the instruction's result (the new
   * top of the stack) where it needs one.
   */
  function After(k: Kind, env: Env, saved: Option<Data>, stack: seq<Word>): (r: Result<seq<Data>>)
    ensures r.Ok? <==> !AfterReadsTop(k) || |stack| > 0
    ensures r.Ok? && DirectionOf(k) != DIRECTION_NONE ==> r.value == []
  {
    if AfterReadsTop(k) then
      if |stack| == 0 then Fail("index out of range") else Ok(Completed(k, env, saved, Top(stack, 1)))
    else if DirectionOf(k) == DIRECTION_NONE && saved.Some? then Ok([saved.value])
    else Ok([])
  }

  /** The step of a handler that reads the instruction's result `top`. */
  function Completed(k: Kind, env: Env, saved: Option<Data>, top: Word): (ds: seq<Data>)
    requires AfterReadsTop(k)
  {
    match k
    case UnaryHandler(fop) => [DataOne(fop, top)]
    case BinaryHandler(fop) => [DataTwo(fop, top)]
    case TernaryHandler(fop) => [DataThree(fop, top)]
    case ConstantHandler(fop) => [DataConstant(fop, top)]
    case Constant20Handler(fop) => [DataConstant20(fop, top)]
    case PrevrandaoOrDifficultyHandler => [DataConstant(if env.isRandom then OP_RANDOM else OP_DIFFICULTY, top)]
    case BalanceHandler => [DataBalance(top)]
    case SelfBalanceHandler => [DataSelfBalance(top)]
    case BlockHashHandler => [DataBlockHash(Bytes32(top))]
    case BlobHashHandler => [DataBlobHash(Bytes32(top))]
    case ReturnDataSizeHandler => [DataReturndataSize(LowU64(top))]
    case CodeSizeHandler => [DataCodeSize(LowU64(top))]
    case CallDataSizeHandler => [DataCalldataSize(LowU64(top))]
    case _ => CompletedState(k, saved, top)
  }

  /** `Completed` for the handlers whose `Before` kept the operands: the result is filled in. */
  function CompletedState(k: Kind, saved: Option<Data>, top: Word): (ds: seq<Data>)
  {
    match saved
    case Some(DataExtCodeSize(a, _)) => [DataExtCodeSize(a, top)]
    case Some(DataExtCodeHash(a, _)) => [DataExtCodeHash(a, Bytes32(top))]
    case Some(DataSLoad(slot, _)) => [DataSLoad(slot, top)]
    case Some(DataKeccak(_, o, s)) => [DataKeccak(Bytes32(top), o, s)]
    case _ => []
  }

  /** Whether `end` is the end step a handler of kind `k` keeps: a `DataCallEnd` for a call, the matching create end for a create. */
  predicate EndsCall(k: Kind, end: Data)
  {
    (k.CallFamilyHandler? && end.DataCallEnd?) || (k.CreateHandler? && end.DataCreateEnd?)
    || (k.Create2Handler? && end.DataCreate2End?)
  }

  /** `Exit`: a call handler hands over its `DataCallEnd` with the outcome, a create handler its `DataCreateEnd`. */
  function Exit(k: Kind, saved: Option<Data>, success: bool): (r: seq<Data>)
    ensures DirectionOf(k) != DIRECTION_CALL ==> r == []
    ensures saved.Some? && EndsCall(k, saved.value) ==> |r| == 1 && Pushes(r[0]) == 1 && Pops(r[0]) == 0
  {
    if DirectionOf(k) != DIRECTION_CALL || saved.None? then []
    else if !k.CallFamilyHandler? then [saved.value]
    else if saved.value.DataCallEnd? then [saved.value.(success := success)]
    else []
  }

  // ---- the registry against the EVM ----

  /** What the steps of a handler of kind `k` for instruction `op` do to the formula stack's height. */
  function KindDelta(k: Kind, op: Byte): int
  {
    match k
    case UnaryHandler(_) | BalanceHandler | BlockHashHandler | BlobHashHandler | MLoadHandler | ExtCodeSizeHandler
       | ExtCodeHashHandler | SLoadHandler | TLoadHandler | CallDataLoadHandler | StopHandler | SwapHandler => 0
    case BinaryHandler(_) | ByteHandler | PopHandler | KeccakHandler | SelfdestructHandler => -1
    case TernaryHandler(_) | MStoreHandler | MStore8Handler | SStoreHandler | TStoreHandler | ReturnHandler
       | RevertHandler | CreateHandler => -2
    case CodeCopyHandler | CallDataCopyHandler | ReturnDataCopyHandler | MCopyHandler | Create2Handler => -3
    case ExtCodeCopyHandler => -4
    case LogHandler => -(2 + op - LOG0)
    case EmptyHandler(n) => 0 - Times(n)
    case CallFamilyHandler(withValue, _) => if withValue then -6 else -5
    case _ => 1
  }

  lemma DeltaAppend(a: seq<Data>, b: seq<Data>)
    ensures Delta(a + b) == Delta(a) + Delta(b)
  {
    if a != [] {
      assert (a + b)[0] == a[0];
      assert (a + b)[1..] == a[1..] + b;
      DeltaAppend(a[1..], b);
    } else {
      assert a + b == b;
    }
  }

  lemma DeltaSingle(d: Data)
    ensures Delta([d]) == Pushes(d) - Pops(d)
  {
    assert [d][1..] == [];
  }

  /**
   * Over a whole instruction (its `Before`, its `After` and, for a call or a
   * create, its `Exit`), a handler moves the formula stack by `KindDelta`.
   */
  lemma StepsDelta(k: Kind, env: Env, stack: seq<Word>, memory: seq<Byte>, pc: U64, op: Byte, addr: Address,
                   post: seq<Word>, success: bool)
    requires k == LogHandler ==> LOG0 <= op
    requires Before(k, env, stack, memory, pc, op, addr).Ok?
    requires After(k, env, Before(k, env, stack, memory, pc, op, addr).value.saved, post).Ok?
    ensures var s := Before(k, env, stack, memory, pc, op, addr).value;
      Delta(s.handled + After(k, env, s.saved, post).value + Exit(k, s.saved, success)) == KindDelta(k, op)
  {
    var s := Before(k, env, stack, memory, pc, op, addr).value;
    var a := After(k, env, s.saved, post).value;
    var e := Exit(k, s.saved, success);
    DeltaAppend(s.handled, a);
    DeltaAppend(s.handled + a, e);
    if DirectionOf(k) == DIRECTION_RETURN {
      ReturnDelta(k, env, stack, memory, op);
    } else if DirectionOf(k) == DIRECTION_CALL {
      CallDelta(k, env, stack, memory, addr, op, success);
    } else if AfterReadsTop(k) {
      CompletedDelta(k, env, stack, pc, op, Top(post, 1));
    } else {
      SavedDelta(k, stack, pc, op);
      DeltaSingle(Saved(k, stack, pc, op));
    }
  }

  lemma ReturnDelta(k: Kind, env: Env, stack: seq<Word>, memory: seq<Byte>, op: Byte)
    requires Needs(k) <= |stack| && DirectionOf(k) == DIRECTION_RETURN
    ensures Delta(StartReturn(k, env, stack, memory).handled) == KindDelta(k, op)
  {
    DeltaSingle(StartReturn(k, env, stack, memory).handled[0]);
  }

  lemma CallDelta(k: Kind, env: Env, stack: seq<Word>, memory: seq<Byte>, addr: Address, op: Byte, success: bool)
    requires Needs(k) <= |stack| && DirectionOf(k) == DIRECTION_CALL
    ensures var s := StartCall(k, env, stack, memory, addr);
      Delta(s.handled) + Delta(Exit(k, s.saved, success)) == KindDelta(k, op)
  {
    var s := StartCall(k, env, stack, memory, addr);
    DeltaSingle(s.handled[0]);
    DeltaSingle(Exit(k, s.saved, success)[0]);
  }

  lemma SavedDelta(k: Kind, stack: seq<Word>, pc: U64, op: Byte)
    requires Needs(k) <= |stack| && DirectionOf(k) == DIRECTION_NONE && !AfterReadsTop(k)
    requires k == LogHandler ==> LOG0 <= op
    ensures Pushes(Saved(k, stack, pc, op)) - Pops(Saved(k, stack, pc, op)) == KindDelta(k, op)
  {
  }

  lemma CompletedDelta(k: Kind, env: Env, stack: seq<Word>, pc: U64, op: Byte, top: Word)
    requires Needs(k) <= |stack| && DirectionOf(k) == DIRECTION_NONE && AfterReadsTop(k)
    ensures Delta(Completed(k, env, Some(Saved(k, stack, pc, op)), top)) == KindDelta(k, op)
  {
    var ds := Completed(k, env, Some(Saved(k, stack, pc, op)), top);
    if k.ExtCodeSizeHandler? || k.ExtCodeHashHandler? || k.SLoadHandler? || k.KeccakHandler? {
      StateDelta(k, stack, top);
    } else if k.BlockHashHandler? || k.BlobHashHandler? {
      HashDelta(k, env, Some(Saved(k, stack, pc, op)), top);
    } else if k.UnaryHandler? || k.BinaryHandler? || k.TernaryHandler? {
      ArithDelta(k, env, Some(Saved(k, stack, pc, op)), top);
    } else {
      ConstantDelta(k, env, Some(Saved(k, stack, pc, op)), top);
    }
  }

  lemma ArithDelta(k: Kind, env: Env, saved: Option<Data>, top: Word)
    requires k.UnaryHandler? || k.BinaryHandler? || k.TernaryHandler?
    ensures Delta(Completed(k, env, saved, top)) == KindDelta(k, 0)
  {
    DeltaSingle(Completed(k, env, saved, top)[0]);
  }

  lemma ConstantDelta(k: Kind, env: Env, saved: Option<Data>, top: Word)
    requires AfterReadsTop(k) && !(k.UnaryHandler? || k.BinaryHandler? || k.TernaryHandler?)
    requires !(k.ExtCodeSizeHandler? || k.ExtCodeHashHandler? || k.SLoadHandler? || k.KeccakHandler?)
    requires !(k.BlockHashHandler? || k.BlobHashHandler?)
    ensures Delta(Completed(k, env, saved, top)) == KindDelta(k, 0)
  {
    DeltaSingle(Completed(k, env, saved, top)[0]);
  }

  lemma HashDelta(k: Kind, env: Env, saved: Option<Data>, top: Word)
    requires k.BlockHashHandler? || k.BlobHashHandler?
    ensures Delta(Completed(k, env, saved, top)) == 0
  {
    DeltaSingle(Completed(k, env, saved, top)[0]);
  }

  lemma StateDelta(k: Kind, stack: seq<Word>, top: Word)
    requires Needs(k) <= |stack|
    requires k.ExtCodeSizeHandler? || k.ExtCodeHashHandler? || k.SLoadHandler? || k.KeccakHandler?
    ensures Delta(CompletedState(k, Some(SavedState(k, stack)), top)) == KindDelta(k, 0)
  {
    var ds := CompletedState(k, Some(SavedState(k, stack)), top);
    assert |ds| == 1;
    DeltaSingle(ds[0]);
  }

  /** The facts about a registration that tie it to the EVM's own definition of the instruction. */
  predicate Agrees(op: Byte, k: Kind)
  {
    && KindDelta(k, op) == EvmPushes(op) - EvmPops(op)
    && Needs(k) <= EvmPops(op)
    && (AfterReadsTop(k) ==> EvmPushes(op) >= 1)
    && (DirectionOf(k) == DIRECTION_RETURN <==> (op == STOP || op == RETURN || op == REVERT || op == SELFDESTRUCT))
    && (DirectionOf(k) == DIRECTION_CALL <==> (op == CREATE || op == CALL || op == CALLCODE || op == DELEGATECALL || op == CREATE2 || op == STATICCALL))
  }

  lemma StopAgrees1()
    ensures Agrees(STOP, StopHandler)
    ensures Agrees(ADD, BinaryHandler(OP_ADD))
  {
  }

  lemma StopAgrees2()
    ensures Agrees(MUL, BinaryHandler(OP_MUL))
    ensures Agrees(SUB, BinaryHandler(OP_SUB))
  {
  }

  lemma StopAgrees3()
    ensures Agrees(DIV, BinaryHandler(OP_DIV))
    ensures Agrees(SDIV, BinaryHandler(OP_SDIV))
  {
  }

  lemma StopAgrees4()
    ensures Agrees(MOD, BinaryHandler(OP_MOD))
    ensures Agrees(SMOD, BinaryHandler(OP_SMOD))
  {
  }

  lemma StopAgrees5()
    ensures Agrees(ADDMOD, TernaryHandler(OP_ADD_MOD))
    ensures Agrees(MULMOD, TernaryHandler(OP_MUL_MOD))
  {
  }

  lemma StopAgrees6()
    ensures Agrees(EXP, BinaryHandler(OP_EXP))
    ensures Agrees(SIGNEXTEND, BinaryHandler(OP_SIGN_EXTEND))
  {
  }

  lemma StopAgrees(op: Byte)
    requires StopArithmetic(op).Some?
    ensures Agrees(op, StopArithmetic(op).value)
  {
    StopAgrees1(); StopAgrees2(); StopAgrees3(); StopAgrees4(); StopAgrees5(); StopAgrees6();
  }

  lemma ComparisonAgrees1()
    ensures Agrees(LT, BinaryHandler(OP_LT))
    ensures Agrees(GT, BinaryHandler(OP_GT))
  {
  }

  lemma ComparisonAgrees2()
    ensures Agrees(SLT, BinaryHandler(OP_SLT))
    ensures Agrees(SGT, BinaryHandler(OP_SGT))
  {
  }

  lemma ComparisonAgrees3()
    ensures Agrees(EQ, BinaryHandler(OP_EQ))
    ensures Agrees(ISZERO, UnaryHandler(OP_IS_ZERO))
  {
  }

  lemma ComparisonAgrees(op: Byte)
    requires Comparison(op).Some?
    ensures Agrees(op, Comparison(op).value)
  {
    ComparisonAgrees1(); ComparisonAgrees2(); ComparisonAgrees3();
  }

  lemma BitwiseAgrees1()
    ensures Agrees(AND, BinaryHandler(OP_AND))
    ensures Agrees(OR, BinaryHandler(OP_OR))
  {
  }

  lemma BitwiseAgrees2()
    ensures Agrees(XOR, BinaryHandler(OP_XOR))
    ensures Agrees(NOT, UnaryHandler(OP_NOT))
  {
  }

  lemma BitwiseAgrees3()
    ensures Agrees(BYTE, ByteHandler)
    ensures Agrees(SHL, BinaryHandler(OP_SHL))
  {
  }

  lemma BitwiseAgrees4()
    ensures Agrees(SHR, BinaryHandler(OP_SHR))
    ensures Agrees(SAR, BinaryHandler(OP_SAR))
  {
  }

  lemma BitwiseAgrees(op: Byte)
    requires Bitwise(op).Some?
    ensures Agrees(op, Bitwise(op).value)
  {
    BitwiseAgrees1(); BitwiseAgrees2(); BitwiseAgrees3(); BitwiseAgrees4();
  }

  lemma EnvironmentAgrees1()
    ensures Agrees(KECCAK256, KeccakHandler)
    ensures Agrees(ADDRESS, Constant20Handler(OP_ADDRESS))
  {
  }

  lemma EnvironmentAgrees2()
    ensures Agrees(BALANCE, BalanceHandler)
    ensures Agrees(ORIGIN, Constant20Handler(OP_ORIGIN))
  {
  }

  lemma EnvironmentAgrees3()
    ensures Agrees(CALLER, Constant20Handler(OP_CALLER))
    ensures Agrees(CALLVALUE, ConstantHandler(OP_CALL_VALUE))
  {
  }

  lemma EnvironmentAgrees4()
    ensures Agrees(CALLDATALOAD, CallDataLoadHandler)
    ensures Agrees(CALLDATASIZE, CallDataSizeHandler)
  {
  }

  lemma EnvironmentAgrees5()
    ensures Agrees(CALLDATACOPY, CallDataCopyHandler)
  {
  }

  lemma EnvironmentAgrees(op: Byte)
    requires Environment(op).Some?
    ensures Agrees(op, Environment(op).value)
  {
    EnvironmentAgrees1(); EnvironmentAgrees2(); EnvironmentAgrees3(); EnvironmentAgrees4(); EnvironmentAgrees5();
  }

  lemma CodeAgrees1()
    ensures Agrees(CODESIZE, CodeSizeHandler)
    ensures Agrees(CODECOPY, CodeCopyHandler)
  {
  }

  lemma CodeAgrees2()
    ensures Agrees(EXTCODESIZE, ExtCodeSizeHandler)
    ensures Agrees(EXTCODECOPY, ExtCodeCopyHandler)
  {
  }

  lemma CodeAgrees3()
    ensures Agrees(RETURNDATASIZE, ReturnDataSizeHandler)
    ensures Agrees(RETURNDATACOPY, ReturnDataCopyHandler)
  {
  }

  lemma CodeAgrees4()
    ensures Agrees(EXTCODEHASH, ExtCodeHashHandler)
  {
  }

  lemma CodeAgrees(op: Byte)
    requires Code(op).Some? && op != GASPRICE
    ensures Agrees(op, Code(op).value)
  {
    CodeAgrees1(); CodeAgrees2(); CodeAgrees3(); CodeAgrees4();
  }

  lemma BlockAgrees1()
    ensures Agrees(BLOCKHASH, BlockHashHandler)
    ensures Agrees(COINBASE, Constant20Handler(OP_COINBASE))
  {
  }

  lemma BlockAgrees2()
    ensures Agrees(TIMESTAMP, ConstantHandler(OP_TIMESTAMP))
    ensures Agrees(NUMBER, ConstantHandler(OP_NUMBER))
  {
  }

  lemma BlockAgrees3()
    ensures Agrees(PREVRANDAO, PrevrandaoOrDifficultyHandler)
    ensures Agrees(GASLIMIT, ConstantHandler(OP_GAS_LIMIT))
  {
  }

  lemma BlockAgrees4()
    ensures Agrees(CHAINID, ConstantHandler(OP_CHAIN_ID))
    ensures Agrees(SELFBALANCE, SelfBalanceHandler)
  {
  }

  lemma BlockAgrees5()
    ensures Agrees(BASEFEE, ConstantHandler(OP_BASE_FEE))
    ensures Agrees(BLOBHASH, BlobHashHandler)
  {
  }

  lemma BlockAgrees6()
    ensures Agrees(BLOBBASEFEE, ConstantHandler(OP_BLOB_BASE_FEE))
  {
  }

  lemma BlockAgrees(op: Byte)
    requires Block(op).Some?
    ensures Agrees(op, Block(op).value)
  {
    BlockAgrees1(); BlockAgrees2(); BlockAgrees3(); BlockAgrees4(); BlockAgrees5(); BlockAgrees6();
  }

  lemma MemoryStorageAgrees1()
    ensures Agrees(POP, PopHandler)
    ensures Agrees(MLOAD, MLoadHandler)
  {
  }

  lemma MemoryStorageAgrees2()
    ensures Agrees(MSTORE, MStoreHandler)
    ensures Agrees(SLOAD, SLoadHandler)
  {
  }

  lemma MemoryStorageAgrees3()
    ensures Agrees(SSTORE, SStoreHandler)
  {
  }

  lemma MemoryStorageAgrees(op: Byte)
    requires MemoryStorage(op).Some?
    ensures Agrees(op, MemoryStorage(op).value)
  {
    MemoryStorageAgrees1(); MemoryStorageAgrees2(); MemoryStorageAgrees3();
  }

  lemma FlowAgrees1()
    ensures Agrees(JUMP, EmptyHandler(1))
    ensures Agrees(JUMPI, EmptyHandler(2))
  {
  }

  lemma FlowAgrees2()
    ensures Agrees(PC, ConstantHandler(OP_PC))
    ensures Agrees(MSIZE, ConstantHandler(OP_MSIZE))
  {
  }

  lemma FlowAgrees3()
    ensures Agrees(GAS, ConstantHandler(OP_GAS))
    ensures Agrees(JUMPDEST, EmptyHandler(0))
  {
  }

  lemma FlowAgrees4()
    ensures Agrees(TLOAD, TLoadHandler)
    ensures Agrees(TSTORE, TStoreHandler)
  {
  }

  lemma FlowAgrees5()
    ensures Agrees(MCOPY, MCopyHandler)
  {
  }

  lemma FlowAgrees(op: Byte)
    requires Flow(op).Some?
    ensures Agrees(op, Flow(op).value)
  {
    FlowAgrees1(); FlowAgrees2(); FlowAgrees3(); FlowAgrees4(); FlowAgrees5();
  }

  lemma SystemAgrees1()
    ensures Agrees(CREATE, CreateHandler)
    ensures Agrees(CALL, CallFamilyHandler(true, false))
  {
  }

  lemma SystemAgrees2()
    ensures Agrees(CALLCODE, CallFamilyHandler(true, true))
    ensures Agrees(RETURN, ReturnHandler)
  {
  }

  lemma SystemAgrees3()
    ensures Agrees(DELEGATECALL, CallFamilyHandler(false, true))
    ensures Agrees(CREATE2, Create2Handler)
  {
  }

  lemma SystemAgrees4()
    ensures Agrees(STATICCALL, CallFamilyHandler(false, false))
    ensures Agrees(REVERT, RevertHandler)
  {
  }

  lemma SystemAgrees5()
    ensures Agrees(SELFDESTRUCT, SelfdestructHandler)
  {
  }

  lemma SystemAgrees(op: Byte)
    requires System(op).Some?
    ensures Agrees(op, System(op).value)
  {
    SystemAgrees1(); SystemAgrees2(); SystemAgrees3(); SystemAgrees4(); SystemAgrees5();
  }

  lemma FamilyAgrees(op: Byte)
    requires Family(op).Some?
    ensures Agrees(op, Family(op).value)
  {
  }

  /**
   * Every registered handler agrees with the EVM: its steps move the
   * formula stack as the instruction moves the EVM stack, it reads no stack
   * word the instruction does not consume or produce, and it leaves or
   * opens a frame exactly for the instructions that do.
   */
  lemma RegistryAgrees(op: Byte)
    requires HandlerFor(op).Some?
    ensures Agrees(op, HandlerFor(op).value)
  {
    if Family(op).Some? {
      FamilyAgrees(op);
    } else if op == MSTORE8 || op == GASPRICE {
    } else if op <= 0x0b {
      StopAgrees(op);
    } else if op <= 0x15 {
      ComparisonAgrees(op);
    } else if op <= 0x1d {
      BitwiseAgrees(op);
    } else if op <= 0x37 {
      EnvironmentAgrees(op);
    } else if op <= 0x3f {
      CodeAgrees(op);
    } else if op <= 0x4a {
      BlockAgrees(op);
    } else if op <= 0x55 {
      MemoryStorageAgrees(op);
    } else if op <= 0x5e {
      FlowAgrees(op);
    } else {
      SystemAgrees(op);
    }
  }

  // ---- what each handler reads ----

  /** The family handlers derive their size from the opcode: PUSH 0-32 bytes, DUP 1-16, SWAP 2-17, LOG 0-4 topics. */
  lemma FamilySizes(op: Byte, env: Env, stack: seq<Word>, memory: seq<Byte>, pc: U64, addr: Address)
    requires Family(op).Some? && Before(Family(op).value, env, stack, memory, pc, op, addr).Ok?
    ensures var d := Before(Family(op).value, env, stack, memory, pc, op, addr).value.saved.value;
      && (PUSH0 <= op <= PUSH32 ==> d == DataPush(pc, op - PUSH0) && 0 <= d.size <= 32)
      && (DUP1 <= op <= DUP16 ==> d == DataDup(op - DUP1 + 1) && 1 <= d.dupSize <= 16)
      && (SWAP1 <= op <= SWAP16 ==> d == DataSwap(op - SWAP1 + 2) && 2 <= d.swapSize <= 17)
      && (LOG0 <= op <= LOG4 ==> d.DataLog? && d.topicsNum == op - LOG0 && 0 <= d.topicsNum <= 4)
  {
  }

  /**
   * The code and calldata offsets of CODECOPY, CALLDATACOPY, CALLDATALOAD
   * and EXTCODECOPY are clamped: a word past 64 bits reads as offset
   * 0xffffffffffffffff, past any code or calldata.  Their other operands
   * keep the low 64 bits.
   */
  lemma OffsetsClamped(k: Kind, stack: seq<Word>, pc: U64, op: Byte)
    requires Needs(k) <= |stack|
    requires k.CodeCopyHandler? || k.CallDataCopyHandler? || k.CallDataLoadHandler? || k.ExtCodeCopyHandler?
    ensures var d := Saved(k, stack, pc, op);
      var w := if k.CallDataLoadHandler? then Top(stack, 1) else if k.ExtCodeCopyHandler? then Top(stack, 3) else Top(stack, 2);
      var o := match d
        case DataCodeCopy(_, c, _) => c
        case DataCalldataCopy(_, c, _) => c
        case DataCalldataLoad(c) => c
        case DataExtCodeCopy(_, _, c, _) => c
        case _ => 0;
      (w < U64_LIMIT ==> o == w) && (w >= U64_LIMIT ==> o == U64_MAX) && Needs(k) <= 4
  {
  }

  /**
   * RETURN, CREATE and CREATE2 record `size` bytes of memory from `offset`,
   * zero past its end; when the offset is inside memory and the sum does not
   * wrap, that is what the written slice already gives.
   */
  lemma MemoryOperands(k: Kind, env: Env, stack: seq<Word>, memory: seq<Byte>, addr: Address)
    requires (k.ReturnHandler? && 2 <= |stack|) || (k.CreateHandler? && 3 <= |stack|) || (k.Create2Handler? && 4 <= |stack|)
    ensures var d := if k.ReturnHandler? then StartReturn(k, env, stack, memory).handled[0]
                     else StartCall(k, env, stack, memory, addr).handled[0];
      var offset := LowU64(Top(stack, if k.ReturnHandler? then 1 else 2));
      var size := LowU64(Top(stack, if k.ReturnHandler? then 2 else 3));
      var bytes := match d
        case DataReturn(_, _, r) => r
        case DataCreateStart(_, _, _, c) => c
        case DataCreate2Start(_, _, _, c) => c
        case _ => [];
      && bytes == MemoryResult(memory, offset, size) && |bytes| == size
      && (offset <= |memory| && offset + size < U64_LIMIT ==> MemoryResultAsWritten(memory, offset, size) == Ok(bytes))
  {
    var offset := LowU64(Top(stack, if k.ReturnHandler? then 1 else 2));
    var size := LowU64(Top(stack, if k.ReturnHandler? then 2 else 3));
    if offset <= |memory| && offset + size < U64_LIMIT {
      MemoryResultAgrees(memory, offset, size);
    }
  }

  /**
   * The call family's operands: CALL and CALLCODE take seven words with the
   * return area at depths 6 and 7, DELEGATECALL and STATICCALL six with it
   * at 5 and 6; CALLCODE and DELEGATECALL run the callee's code as the
   * current account, CALL and STATICCALL as the account the second word
   * names; the callee's code is asked of the state database.
   */
  lemma CallLayout(op: Byte, stack: seq<Word>, addr: Address)
    requires op == CALL || op == CALLCODE || op == DELEGATECALL || op == STATICCALL
    requires Needs(HandlerFor(op).value) <= |stack|
    ensures HandlerFor(op).value.CallFamilyHandler?
    ensures var k := HandlerFor(op).value;
      var s := StartCallFamily(k.withValue, k.keepsAddress, stack, addr);
      var n := if op == CALL || op == CALLCODE then 7 else 6;
      var target := WordToAddress(Top(stack, 2));
      && s.handled == [DataCallStart(n, if op == CALLCODE || op == DELEGATECALL then addr else target, target,
                                     LowU64(Top(stack, n - 3)), LowU64(Top(stack, n - 2)))]
      && s.saved == Some(DataCallEnd(false, LowU64(Top(stack, n - 1)), LowU64(Top(stack, n))))
      && s.queries == [GetCode(target)]
  {
  }

  /** The state-database reads: the account an EXTCODE* names, the callee of a call, the nonce of CREATE's creator; nothing else. */
  lemma QueriesOf(k: Kind, env: Env, stack: seq<Word>, memory: seq<Byte>, pc: U64, op: Byte, addr: Address)
    requires Before(k, env, stack, memory, pc, op, addr).Ok?
    ensures var qs := Before(k, env, stack, memory, pc, op, addr).value.queries;
      && ((k.ExtCodeSizeHandler? || k.ExtCodeHashHandler? || k.ExtCodeCopyHandler?) ==> qs == [GetCode(WordToAddress(Top(stack, 1)))])
      && (k.CallFamilyHandler? ==> qs == [GetCode(WordToAddress(Top(stack, 2)))])
      && (k.CreateHandler? ==> qs == [GetNonce(addr)])
      && (!(k.ExtCodeSizeHandler? || k.ExtCodeHashHandler? || k.ExtCodeCopyHandler? || k.CallFamilyHandler? || k.CreateHandler?)
          ==> qs == [])
  {
  }

  /** PREVRANDAO records the randomness opcode after the merge and the difficulty opcode before it. */
  lemma PrevrandaoChoice(env: Env, saved: Option<Data>, stack: seq<Word>)
    requires |stack| > 0
    ensures HandlerFor(PREVRANDAO) == Some(PrevrandaoOrDifficultyHandler)
    ensures After(PrevrandaoOrDifficultyHandler, env, saved, stack).value
         == [DataConstant(if env.isRandom then OP_RANDOM else OP_DIFFICULTY, Top(stack, 1))]
    ensures OP_RANDOM != OP_DIFFICULTY
  {
  }

  /** SELFDESTRUCT records the EIP-6780 variant exactly when the fork flag is set. */
  lemma SelfdestructChoice(env: Env, stack: seq<Word>, memory: seq<Byte>)
    requires |stack| > 0
    ensures HandlerFor(SELFDESTRUCT) == Some(SelfdestructHandler)
    ensures StartReturn(SelfdestructHandler, env, stack, memory).handled[0].DataSelfdestruct6780? <==> env.isSelfdestruct6780
  {
  }
}
