// What the two revm inspectors (foundry/tracevm/src/lib.rs and its older
// revision tracer/extra/mod_foundry.rs) share: the calls they make into the
// C library, the conversions of revm values into the C structs, the EVM
// context they read, the prefetch cells that answer the library's
// state-database callbacks, and the enter/exit event sequences their
// lifecycle properties are stated over.
module RustBridge {
  import opened Common
  import opened Opcodes
  import opened CTypes
  import OpHandlers

  /** `deadbeef_chash`: `de ad be ef` eight times. */
  const DEADBEEF: Hash := [0xde, 0xad, 0xbe, 0xef, 0xde, 0xad, 0xbe, 0xef, 0xde, 0xad, 0xbe, 0xef, 0xde, 0xad, 0xbe, 0xef,
                           0xde, 0xad, 0xbe, 0xef, 0xde, 0xad, 0xbe, 0xef, 0xde, 0xad, 0xbe, 0xef, 0xde, 0xad, 0xbe, 0xef]

  /**
   * The configuration string passed to `InitDep`, field by field; a key the
   * string leaves out holds the JSON zero value.
   */
  datatype InitConfig = InitConfig(
    engine: string, root: string,
    opcodesShort: seq<Byte>, opcodes: seq<Byte>,
    finalSlotsShort: bool, finalSlots: bool, codesShort: bool, codes: bool,
    returnDataShort: bool, returnData: bool, logsShort: bool, logs: bool, solView: bool,
    minimalInfo: bool, omitInfo: bool, omitFormulas: bool, outputFormat: string,
    output: string, pastUnknown: bool)

  /** A call into the C library, with its arguments as the C structs carry them. */
  datatype CCall =
    | CInitDep(config: InitConfig, traceCallback: bool)
    | CRegisterGetNonce
    | CRegisterGetCode
    | CStart(isCreate: bool, addr: CAddress, input: CSizedArray, block: U64, timestamp: U64,
             origin: CAddress, txHash: CHash, code: CSizedArray, isSelfdestruct6780: bool, isRandom: bool)
    | CEnd
    | COpcode(stack: CStack, memory: CSizedArray, addr: CAddress, pc: U64, op: Byte, isInvalid: bool, hasError: bool)
    | CEnter(to: CAddress, input: CSizedArray)
    | CExit(output: CSizedArray, hasError: bool)
    | CFault(op: Byte)

  /**
   * The parts of revm's `EvmContext` the inspectors read: the transaction
   * (its data, sender, nonce and, for a call, its target), the block number
   * and timestamp as 256-bit words, whether the spec is Cancun or later and
   * whether the block has a `prevrandao`, the code of an account (an error
   * of the database is `Fail`), the nonce of an account the journal has
   * loaded, whether the last instruction left an error, Keccak-256 and
   * revm's opcode table (`OpCode::new` succeeds).
   */
  datatype Context = Context(
    txData: seq<Byte>, caller: Address, txNonce: Option<U64>, callTarget: Option<Address>,
    block: Word, timestamp: Word, cancun: bool, prevrandao: bool,
    code: Address -> Result<seq<Byte>>, accountNonce: Address -> Option<U64>,
    error: bool, keccak: Hasher, known: Byte -> bool)

  /** The interpreter at an instruction: stack (bottom first), memory, running account, program counter, opcode. */
  datatype Frame = Frame(stack: seq<Word>, memory: seq<Byte>, target: Address, pc: U64, op: Byte)

  // ---- revm values as C structs ----

  /** `len as i32`: the low 32 bits of the length, read as two's complement. */
  function WrapI32(n: nat): (r: int)
    ensures INT32_MIN <= r <= INT32_MAX && r <= n
    ensures n <= INT32_MAX ==> r == n
  {
    (n + 0x8000_0000) % 0x1_0000_0000 - 0x8000_0000
  }

  /** `bytes_to_csizedarray`: a pointer to the bytes and their length as an `i32`. */
  function ToCSizedArray(b: seq<Byte>): (r: CSizedArray)
    ensures r.data == b
    ensures |b| <= INT32_MAX ==> UnpackSizedArray(r) == Ok(b)
  {
    assert b[..|b|] == b;
    SizedArray(b, WrapI32(|b|))
  }

  /** The C stack `stack_to_cstack` builds: one big-endian hash per word, in order. */
  function CStackOf(stack: seq<Word>): (r: CStack)
  {
    Stack(seq(|stack|, i requires 0 <= i < |stack| => CHash(Bytes32(stack[i]))), WrapI32(|stack|))
  }

  /** `stack_to_cstack`: a vector of `deadbeef` hashes overwritten with each word's 32 big-endian bytes. */
  method StackToCStack(stack: seq<Word>) returns (r: CStack)
    ensures r == CStackOf(stack)
  {
    var data: seq<CHash> := seq(|stack|, _ => CHash(DEADBEEF));
    for i := 0 to |stack|
      invariant |data| == |stack|
      invariant forall j :: 0 <= j < i ==> data[j] == CHash(Bytes32(stack[j]))
    {
      data := data[i := CHash(Bytes32(stack[i]))];
    }
    r := Stack(data, WrapI32(|stack|));
  }

  /**
   * The stack crosses into Go intact: `unpackStack` of the C stack reads
   * back exactly the revm words, as many and in the same order.
   */
  lemma StackCrossesIntact(stack: seq<Word>)
    requires |stack| <= INT32_MAX
    ensures Count(CStackOf(stack)) == |stack|
    ensures Words(CStackOf(stack)) == stack
  {
    var s := CStackOf(stack);
    forall i | 0 <= i < |stack|
      ensures Words(s)[i] == stack[i]
    {
      Bytes32Decodes(stack[i]);
      BEInjective(Words(s)[i], stack[i], 32);
    }
  }

  // ---- the prefetch cells ----

  /**
   * A prefetch cell: the account it is armed for, if any, and the value
   * `dep_step` read for it.  The source marks a disarmed cell with the zero
   * address; this model keeps the arming apart, see `TakeAsWritten`.
   */
  datatype Cell<T> = Cell(armed: Option<Address>, value: T)

  /** `get_nonce`/`get_code`: a disarmed cell panics; an armed one is disarmed and yields its value. */
  function Take<T>(c: Cell<T>): (r: Result<(Cell<T>, T)>)
  {
    if c.armed.None? then Fail("cell is empty") else Ok((Cell(None, c.value), c.value))
  }

  /** A cell answers one callback: the second `Take` without a new arming panics. */
  lemma SingleUse<T>(c: Cell<T>)
    ensures Take(c).Ok? <==> c.armed.Some?
    ensures Take(c).Ok? ==> Take(c).value.1 == c.value && Take(Take(c).value.0).Fail?
  {
  }

  /** `get_nonce`/`get_code` as written: the stored address doubles as the armed flag, zero meaning empty. */
  function TakeAsWritten<T>(address: Address, value: T): (r: Result<(Address, T)>)
  {
    if address == ZERO_ADDRESS then Fail("address is zero") else Ok((ZERO_ADDRESS, value))
  }

  /** As written, too, a cell answers one callback and then panics. */
  lemma SingleUseAsWritten<T>(address: Address, value: T)
    ensures TakeAsWritten(address, value).Ok? <==> address != ZERO_ADDRESS
    ensures TakeAsWritten(address, value).Ok? ==>
      var (next, v) := TakeAsWritten(address, value).value;
      v == value && TakeAsWritten(next, v).Fail?
  {
  }

  /** Both cells. */
  datatype Cells = Cells(code: Cell<seq<Byte>>, nonce: Cell<U64>)

  const EMPTY_CELLS := Cells(Cell(None, []), Cell(None, 0))

  /** An opcode whose `Before` asks the state database for code: EXTCODESIZE, EXTCODEHASH, EXTCODECOPY. */
  predicate ExtCodeOp(op: Byte)
  {
    op == EXTCODESIZE || op == EXTCODEHASH || op == EXTCODECOPY
  }

  /** An opcode of the call family: CALL, CALLCODE, DELEGATECALL, STATICCALL. */
  predicate CallOp(op: Byte)
  {
    op == CALL || op == CALLCODE || op == DELEGATECALL || op == STATICCALL
  }

  /**
   * The account whose code `dep_step` reads ahead: the top word's for
   * EXTCODE* when the stack holds a word, the second word's for the call
   * family when it holds two.
   */
  function CodeTarget(op: Byte, stack: seq<Word>): Option<Address>
  {
    if ExtCodeOp(op) && |stack| >= 1 then Some(WordToAddress(stack[|stack| - 1]))
    else if CallOp(op) && |stack| >= 2 then Some(WordToAddress(stack[|stack| - 2]))
    else None
  }

  /**
   * The arming in `dep_step` for an opcode revm decodes: the code cell for
   * the account `CodeTarget` names (a failing code lookup panics), the nonce
   * cell for the running account on CREATE (an account the journal has not
   * loaded panics); nothing for any other opcode or an unknown one.
   */
  function Arm(cells: Cells, known: bool, op: Byte, stack: seq<Word>, target: Address, ctx: Context): (r: Result<Cells>)
  {
    if !known then Ok(cells)
    else if CodeTarget(op, stack).Some? then
      var a := CodeTarget(op, stack).value;
      match ctx.code(a)
      case Fail(_) => Fail("context.inner.code(addr) failed")
      case Ok(code) => Ok(cells.(code := Cell(Some(a), code)))
    else if op == CREATE then
      match ctx.accountNonce(target)
      case None => Fail("account is not loaded")
      case Some(n) => Ok(cells.(nonce := Cell(Some(target), n)))
    else Ok(cells)
  }

  /** Only EXTCODE*, the call family and CREATE touch the cells; everything else leaves both as they are. */
  lemma ArmsOnly(cells: Cells, known: bool, op: Byte, stack: seq<Word>, target: Address, ctx: Context)
    requires !known || !(ExtCodeOp(op) || CallOp(op) || op == CREATE)
    ensures Arm(cells, known, op, stack, target, ctx) == Ok(cells)
  {
  }

  /** The arming thresholds: EXTCODE* with at least one word, the call family with at least two, CREATE always. */
  lemma ArmingThresholds(cells: Cells, op: Byte, stack: seq<Word>, target: Address, ctx: Context)
    requires Arm(cells, true, op, stack, target, ctx).Ok?
    ensures var c := Arm(cells, true, op, stack, target, ctx).value;
      && (ExtCodeOp(op) ==> c.code == if |stack| >= 1 then Cell(Some(WordToAddress(stack[|stack| - 1])), ctx.code(WordToAddress(stack[|stack| - 1])).value) else cells.code)
      && (CallOp(op) ==> c.code == if |stack| >= 2 then Cell(Some(WordToAddress(stack[|stack| - 2])), ctx.code(WordToAddress(stack[|stack| - 2])).value) else cells.code)
      && (op == CREATE ==> c == cells.(nonce := Cell(Some(target), ctx.accountNonce(target).value)))
      && (ExtCodeOp(op) || CallOp(op) ==> c.nonce == cells.nonce)
  {
  }

  /**
   * The prefetch serves the Go side: for an opcode revm decodes and the Go
   * registry handles, every state-database read its `Before` makes is for
   * the account a cell was just armed for, and the cell holds what revm
   * reports for that account; `Before` makes at most one read, so the
   * single-use cell suffices.
   */
  lemma PrefetchServes(cells: Cells, op: Byte, f: Frame, ctx: Context, env: OpHandlers.Env)
    requires f.op == op && ctx.known(op) && OpHandlers.HandlerFor(op).Some?
    requires OpHandlers.Before(OpHandlers.HandlerFor(op).value, env, f.stack, f.memory, f.pc, op, f.target).Ok?
    requires Arm(cells, true, op, f.stack, f.target, ctx).Ok?
    ensures var qs := OpHandlers.Before(OpHandlers.HandlerFor(op).value, env, f.stack, f.memory, f.pc, op, f.target).value.queries;
      var c := Arm(cells, true, op, f.stack, f.target, ctx).value;
      && |qs| <= 1
      && (forall q :: q in qs && q.GetCode? ==> c.code.armed == Some(q.addr) && ctx.code(q.addr) == Ok(c.code.value))
      && (forall q :: q in qs && q.GetNonce? ==> c.nonce.armed == Some(q.addr) && ctx.accountNonce(q.addr) == Some(c.nonce.value))
  {
    KindOfQueried(op);
    KindServes(cells, OpHandlers.HandlerFor(op).value, op, f, ctx, env);
  }

  /** `PrefetchServes` for any handler kind that reads for the opcodes `dep_step` arms for. */
  lemma KindServes(cells: Cells, k: OpHandlers.Kind, op: Byte, f: Frame, ctx: Context, env: OpHandlers.Env)
    requires (k.ExtCodeSizeHandler? || k.ExtCodeHashHandler? || k.ExtCodeCopyHandler? <==> ExtCodeOp(op))
    requires (k.CallFamilyHandler? <==> CallOp(op)) && (k.CreateHandler? <==> op == CREATE)
    requires OpHandlers.Before(k, env, f.stack, f.memory, f.pc, op, f.target).Ok?
    requires Arm(cells, true, op, f.stack, f.target, ctx).Ok?
    ensures var qs := OpHandlers.Before(k, env, f.stack, f.memory, f.pc, op, f.target).value.queries;
      var c := Arm(cells, true, op, f.stack, f.target, ctx).value;
      && |qs| <= 1
      && (forall q :: q in qs && q.GetCode? ==> c.code.armed == Some(q.addr) && ctx.code(q.addr) == Ok(c.code.value))
      && (forall q :: q in qs && q.GetNonce? ==> c.nonce.armed == Some(q.addr) && ctx.accountNonce(q.addr) == Some(c.nonce.value))
  {
    var qs := OpHandlers.Before(k, env, f.stack, f.memory, f.pc, op, f.target).value.queries;
    OpHandlers.QueriesOf(k, env, f.stack, f.memory, f.pc, op, f.target);
    CellsServe(cells, op, f.stack, f.target, ctx, qs);
  }

  /** The cells `Arm` leaves answer the reads of the account each opcode family names. */
  lemma CellsServe(cells: Cells, op: Byte, stack: seq<Word>, target: Address, ctx: Context, qs: seq<OpHandlers.Query>)
    requires Arm(cells, true, op, stack, target, ctx).Ok?
    requires ExtCodeOp(op) ==> |stack| >= 1 && qs == [OpHandlers.GetCode(WordToAddress(stack[|stack| - 1]))]
    requires CallOp(op) ==> |stack| >= 2 && qs == [OpHandlers.GetCode(WordToAddress(stack[|stack| - 2]))]
    requires op == CREATE ==> qs == [OpHandlers.GetNonce(target)]
    requires !(ExtCodeOp(op) || CallOp(op) || op == CREATE) ==> qs == []
    ensures var c := Arm(cells, true, op, stack, target, ctx).value;
      && |qs| <= 1
      && (forall q :: q in qs && q.GetCode? ==> c.code.armed == Some(q.addr) && ctx.code(q.addr) == Ok(c.code.value))
      && (forall q :: q in qs && q.GetNonce? ==> c.nonce.armed == Some(q.addr) && ctx.accountNonce(q.addr) == Some(c.nonce.value))
  {
  }

  /** The registered handlers that read the state database belong to exactly the opcodes `dep_step` arms for. */
  lemma KindOfQueried(op: Byte)
    requires OpHandlers.HandlerFor(op).Some?
    ensures var k := OpHandlers.HandlerFor(op).value;
      && (k.ExtCodeSizeHandler? || k.ExtCodeHashHandler? || k.ExtCodeCopyHandler? <==> ExtCodeOp(op))
      && (k.CallFamilyHandler? <==> CallOp(op))
      && (k.CreateHandler? <==> op == CREATE)
  {
  }

  // ---- the zero-address sentinel ----

  /**
   * As written, a CALL to the zero address (a plain burn) arms the code
   * cell with the zero address, which the cell reads as empty: the Go
   * handler's code lookup then panics, although `Before` asks for exactly
   * the account that was armed.
   */
  lemma ZeroCalleePanicsAsWritten(ctx: Context, f: Frame, gas: Word, rest: seq<Word>)
    requires f.op == CALL && f.stack == rest + [0, gas] && ctx.known(CALL) && ctx.code(ZERO_ADDRESS).Ok?
    ensures CodeTarget(CALL, f.stack) == Some(ZERO_ADDRESS)
    ensures Arm(EMPTY_CELLS, true, CALL, f.stack, f.target, ctx).Ok?
    ensures TakeAsWritten(CodeTarget(CALL, f.stack).value, ctx.code(ZERO_ADDRESS).value).Fail?
    ensures Take(Arm(EMPTY_CELLS, true, CALL, f.stack, f.target, ctx).value.code).Ok?
  {
    WordToAddressOfZero();
  }

  lemma WordToAddressOfZero()
    ensures WordToAddress(0) == ZERO_ADDRESS
  {
    BEOfZero(20);
  }

  lemma {:induction false} BEOfZero(n: nat)
    ensures BE(0, n) == Zeros(n)
  {
    if n > 0 {
      BEOfZero(n - 1);
    }
  }

  // ---- enter/exit sequences ----

  /** A frame entered (`call`/`create`) or left (`call_end`/`create_end`), with what revm passes for it. */
  datatype FrameEvent =
    | EvEnter(isCreate: bool, input: seq<Byte>, addr: Address)
    | EvExit(output: seq<Byte>, hasError: bool)

  /** Entries minus exits. */
  function Depth(evs: seq<FrameEvent>): int
  {
    if evs == [] then 0 else Depth(evs[..|evs| - 1]) + (if evs[|evs| - 1].EvEnter? then 1 else -1)
  }

  /** One top-level frame: the depth is positive after every proper prefix and back to zero at the end. */
  predicate OneFrame(evs: seq<FrameEvent>)
  {
    |evs| > 0 && Depth(evs) == 0 && forall k :: 0 < k < |evs| ==> Depth(evs[..k]) > 0
  }

  /** The kind of a C call, for counting. */
  predicate IsKind(c: CCall, kind: int)
  {
    match c
    case CStart(_, _, _, _, _, _, _, _, _, _) => kind == 0
    case CEnd => kind == 1
    case CEnter(_, _) => kind == 2
    case CExit(_, _) => kind == 3
    case _ => kind == 4
  }

  const START := 0
  const END := 1
  const ENTER := 2
  const EXIT := 3

  /** How many of the calls are of the kind. */
  function CountOf(cs: seq<CCall>, kind: int): nat
  {
    if cs == [] then 0 else CountOf(cs[..|cs| - 1], kind) + (if IsKind(cs[|cs| - 1], kind) then 1 else 0)
  }

  lemma {:induction false} CountAppend(a: seq<CCall>, b: seq<CCall>, kind: int)
    ensures CountOf(a + b, kind) == CountOf(a, kind) + CountOf(b, kind)
  {
    if b != [] {
      assert (a + b)[..|a + b| - 1] == a + b[..|b| - 1];
      assert (a + b)[|a + b| - 1] == b[|b| - 1];
      CountAppend(a, b[..|b| - 1], kind);
    } else {
      assert a + b == a;
    }
  }

  lemma CountOne(c: CCall, kind: int)
    ensures CountOf([c], kind) == if IsKind(c, kind) then 1 else 0
  {
    assert [c][..0] == [];
  }

  /** How many events enter a frame. */
  function Enters(evs: seq<FrameEvent>): nat
  {
    if evs == [] then 0 else Enters(evs[..|evs| - 1]) + (if evs[|evs| - 1].EvEnter? then 1 else 0)
  }

  /** A single top-level frame starts by entering and ends by leaving with one frame open. */
  lemma {:induction false} OneFrameEnds(evs: seq<FrameEvent>)
    requires OneFrame(evs)
    ensures |evs| >= 2 && evs[0].EvEnter? && evs[|evs| - 1].EvExit?
    ensures Depth(evs[..|evs| - 1]) == 1
    ensures Depth(evs[..1]) == 1
  {
    if |evs| == 1 {
      assert false;
    }
    assert evs[..1][..0] == [];
    assert Depth(evs[..1]) > 0;
    assert evs[..|evs|][..|evs| - 1] == evs[..|evs| - 1];
    assert evs[..|evs|] == evs;
  }
}
