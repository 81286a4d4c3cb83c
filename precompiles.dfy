// The precompile registry (tracer/dep_tracer/pc_handlers.go): one handler per
// precompiled contract 0x01..0x0A, each turning the call's input and output
// into the `Data*` value whose `Handle` (global.dfy) records the formulas.
module Precompiles {
  import opened Common

  /** Go's `int` on a 64-bit target: the largest length a slice can have. */
  const INT_MAX: int := 0x7fff_ffff_ffff_ffff

  datatype PrecompileHandler =
    | ECRecoverHandler | SHA256Handler | Ripemd160Handler | IdentityHandler | ModExpHandler
    | EcAddHandler | EcMulHandler | EcPairingHandler | Blake2FHandler | PointEvaluationHandler

  /** The `Data*` value an `Execute` builds; `result` is the precompile's output. */
  datatype PrecompileData =
    | DataPrecompileEcRecover(result: seq<Byte>)
    | DataPrecompileSha256(result: seq<Byte>)
    | DataPrecompileRipemd160(result: seq<Byte>)
    | DataPrecompileIdentity(result: seq<Byte>)
    | DataPrecompileModExp(result: seq<Byte>, bSize: U64, eSize: U64, mSize: U64)
    | DataPrecompileEcAdd(result: seq<Byte>)
    | DataPrecompileEcMul(result: seq<Byte>)
    | DataPrecompileEcPairing(result: seq<Byte>)
    | DataPrecompileBlake2F(result: seq<Byte>)
    | DataPointEvaluation(result: seq<Byte>)

  /** geth's `common.BytesToAddress([]byte{n})`: nineteen zero bytes, then `n`. */
  function PrecompileAddress(n: Byte): (a: Address)
    ensures a[19] == n && AllZero(a[..19])
  {
    Zeros(19) + [n]
  }

  /** The addresses of the precompiled contracts: 0x01 to 0x0a. */
  predicate IsPrecompileAddress(a: Address)
  {
    AllZero(a[..19]) && 1 <= a[19] <= 10
  }

  /** The number each handler's `Register` writes itself under. */
  function Number(h: PrecompileHandler): Byte
  {
    match h
    case ECRecoverHandler => 1
    case SHA256Handler => 2
    case Ripemd160Handler => 3
    case IdentityHandler => 4
    case ModExpHandler => 5
    case EcAddHandler => 6
    case EcMulHandler => 7
    case EcPairingHandler => 8
    case Blake2FHandler => 9
    case PointEvaluationHandler => 10
  }

  /** Every handler sits at a precompile address, and no two share one. */
  lemma NumberAddresses(h: PrecompileHandler, g: PrecompileHandler)
    ensures IsPrecompileAddress(PrecompileAddress(Number(h)))
    ensures PrecompileAddress(Number(h)) == PrecompileAddress(Number(g)) <==> h == g
  {
    if PrecompileAddress(Number(h)) == PrecompileAddress(Number(g)) {
      assert PrecompileAddress(Number(h))[19] == Number(h);
    }
  }

  /** The registered handler for each precompile address. */
  function HandlerAt(n: Byte): (r: Option<PrecompileHandler>)
    ensures r.Some? <==> 1 <= n <= 10
    ensures r.Some? ==> Number(r.value) == n
  {
    match n
    case 1 => Some(ECRecoverHandler)
    case 2 => Some(SHA256Handler)
    case 3 => Some(Ripemd160Handler)
    case 4 => Some(IdentityHandler)
    case 5 => Some(ModExpHandler)
    case 6 => Some(EcAddHandler)
    case 7 => Some(EcMulHandler)
    case 8 => Some(EcPairingHandler)
    case 9 => Some(Blake2FHandler)
    case 10 => Some(PointEvaluationHandler)
    case _ => None
  }

  /** `NewPrecompileHandlers`: each handler registers itself in turn. */
  method NewPrecompileHandlers() returns (handlers: map<Address, PrecompileHandler>)
    ensures forall a :: a in handlers <==> IsPrecompileAddress(a)
    ensures forall a :: a in handlers ==> HandlerAt(a[19]) == Some(handlers[a])
  {
    var all := [ECRecoverHandler, SHA256Handler, Ripemd160Handler, IdentityHandler, ModExpHandler,
                EcAddHandler, EcMulHandler, EcPairingHandler, Blake2FHandler, PointEvaluationHandler];
    handlers := map[];
    var i := 0;
    while i < |all|
      invariant 0 <= i <= |all|
      invariant forall k :: 0 <= k < |all| ==> Number(all[k]) == k + 1
      invariant forall a :: a in handlers <==> AllZero(a[..19]) && 1 <= a[19] <= i
      invariant forall a :: a in handlers ==> HandlerAt(a[19]) == Some(handlers[a])
    {
      handlers := Register(all[i], handlers);
      i := i + 1;
    }
  }

  /** `Register`: the handler at its own address, every other entry untouched. */
  method Register(h: PrecompileHandler, handlers: map<Address, PrecompileHandler>)
    returns (r: map<Address, PrecompileHandler>)
    ensures forall a :: a in r <==> a in handlers || (AllZero(a[..19]) && a[19] == Number(h))
    ensures forall a :: a in r ==> r[a] == if AllZero(a[..19]) && a[19] == Number(h) then h else handlers[a]
  {
    var at := PrecompileAddress(Number(h));
    r := handlers[at := h];
    forall a: Address | AllZero(a[..19]) && a[19] == Number(h)
      ensures a == at
    {
      assert a == a[..19] + [a[19]];
      assert at == at[..19] + [at[19]];
    }
  }

  /**
   * The `Execute` of each handler as written: note that the Ripemd160
   * handler builds a `DataPrecompileSha256` value.
   */
  function ExecuteAsWritten(h: PrecompileHandler, input: seq<Byte>, output: seq<Byte>): PrecompileData
    requires |input| <= INT_MAX
  {
    match h
    case Ripemd160Handler => DataPrecompileSha256(output)
    case _ => Execute(h, input, output)
  }

  /** The Ripemd160 call is recorded as a SHA-256 call, while every other handler is unaffected. */
  lemma ExecuteAsWrittenRipemd(h: PrecompileHandler, input: seq<Byte>, output: seq<Byte>)
    requires |input| <= INT_MAX
    ensures ExecuteAsWritten(h, input, output) == Execute(h, input, output) <==> h != Ripemd160Handler
    ensures ExecuteAsWritten(Ripemd160Handler, input, output) == DataPrecompileSha256(output)
  {
  }

  /** The handler a `Data*` value belongs to. */
  function Producer(d: PrecompileData): PrecompileHandler
  {
    match d
    case DataPrecompileEcRecover(_) => ECRecoverHandler
    case DataPrecompileSha256(_) => SHA256Handler
    case DataPrecompileRipemd160(_) => Ripemd160Handler
    case DataPrecompileIdentity(_) => IdentityHandler
    case DataPrecompileModExp(_, _, _, _) => ModExpHandler
    case DataPrecompileEcAdd(_) => EcAddHandler
    case DataPrecompileEcMul(_) => EcMulHandler
    case DataPrecompileEcPairing(_) => EcPairingHandler
    case DataPrecompileBlake2F(_) => Blake2FHandler
    case DataPointEvaluation(_) => PointEvaluationHandler
  }

  /**
   * `Execute`, with the Ripemd160 handler building the Ripemd160 value:
   * each handler builds its own kind of value around the output, and
   * ModExp adds the three lengths read from the input.
   */
  function Execute(h: PrecompileHandler, input: seq<Byte>, output: seq<Byte>): (d: PrecompileData)
    requires |input| <= INT_MAX
    ensures Producer(d) == h && d.result == output
    ensures d.DataPrecompileModExp? ==> (d.bSize, d.eSize, d.mSize) == ModExpLengths(input)
  {
    match h
    case ECRecoverHandler => DataPrecompileEcRecover(output)
    case SHA256Handler => DataPrecompileSha256(output)
    case Ripemd160Handler => DataPrecompileRipemd160(output)
    case IdentityHandler => DataPrecompileIdentity(output)
    case ModExpHandler =>
      var (b, e, m) := ModExpLengths(input);
      DataPrecompileModExp(output, b, e, m)
    case EcAddHandler => DataPrecompileEcAdd(output)
    case EcMulHandler => DataPrecompileEcMul(output)
    case EcPairingHandler => DataPrecompileEcPairing(output)
    case Blake2FHandler => DataPrecompileBlake2F(output)
    case PointEvaluationHandler => DataPointEvaluation(output)
  }

  /** geth's `common.RightPadBytes(b, l)`: `b` itself unless it is shorter than `l`. */
  function RightPad(b: seq<Byte>, l: int): (r: seq<Byte>)
    ensures l <= |b| ==> r == b
    ensures l > |b| ==> |r| == l && r[..|b|] == b && AllZero(r[|b|..])
  {
    if l <= |b| then b else b + Zeros(l - |b|)
  }

  function Min(a: int, b: int): int { if a < b then a else b }

  /**
   * ModExp's `getData`: the input from `start` to `start + size`, both clamped
   * to the input's length, right-padded to `size` (converted to a Go `int`).
   * The `uint64` end wraps for a huge size, and the slice then panics.
   */
  function GetData(data: seq<Byte>, start: U64, size: U64): (r: Result<seq<Byte>>)
    requires |data| <= INT_MAX
    ensures r.Fail? <==> Min(start, |data|) + size >= U64_LIMIT
  {
    var s := Min(start, |data|);
    var end := Add64(s, size);
    if end < s then Fail("slice bounds out of range")
    else
      var e := Min(end, |data|);
      Ok(RightPad(data[s..e], if size <= INT_MAX then size else size - U64_LIMIT))
  }

  /** Byte `i` of the window at `start`: the input's byte there, zero past its end. */
  function WindowByte(data: seq<Byte>, start: nat, i: nat): Byte
  {
    if start + i < |data| then data[start + i] else 0
  }

  /** Without wrap-around, `getData` yields exactly `size` bytes: the window, zero beyond the input. */
  lemma GetDataWindow(data: seq<Byte>, start: U64, size: U64)
    requires |data| <= INT_MAX && size <= INT_MAX
    requires Min(start, |data|) + size < U64_LIMIT
    ensures GetData(data, start, size).Ok?
    ensures var r := GetData(data, start, size).value;
      |r| == size && forall i :: 0 <= i < size ==> r[i] == WindowByte(data, start, i)
  {
    var s := Min(start, |data|);
    var e := Min(s + size, |data|);
    var r := GetData(data, start, size).value;
    assert r == RightPad(data[s..e], size);
    forall i | 0 <= i < size
      ensures r[i] == WindowByte(data, start, i)
    {
      if s + i < e {
        assert r[..e - s] == data[s..e];
        assert r[i] == r[..e - s][i];
      } else {
        assert AllZero(r[e - s..]);
        assert r[i] == r[e - s..][i - (e - s)];
      }
    }
  }

  /** The 32-byte length word at offset `start`, zero-padded past the input's end. */
  function LengthWord(data: seq<Byte>, start: U64): (w: Word)
    requires |data| <= INT_MAX && start <= 64
  {
    Pow256Facts();
    GetDataWindow(data, start, 32);
    FromBE(GetData(data, start, 32).value)
  }

  /** The base, exponent and modulus lengths: the low 64 bits (`Uint64()`) of the words at 0, 32 and 64. */
  function ModExpLengths(input: seq<Byte>): (U64, U64, U64)
    requires |input| <= INT_MAX
  {
    (LowU64(LengthWord(input, 0)), LowU64(LengthWord(input, 32)), LowU64(LengthWord(input, 64)))
  }

  /** With at least 96 input bytes the three lengths are read straight from the input's first three words. */
  lemma ModExpLengthsOfWords(input: seq<Byte>)
    requires 96 <= |input| <= INT_MAX
    ensures ModExpLengths(input) ==
      (LowU64(FromBE(input[0..32])), LowU64(FromBE(input[32..64])), LowU64(FromBE(input[64..96])))
  {
    Pow256Facts();
    WordAt(input, 0);
    WordAt(input, 32);
    WordAt(input, 64);
  }

  lemma WordAt(input: seq<Byte>, start: U64)
    requires start <= 64 && start + 32 <= |input| <= INT_MAX
    ensures GetData(input, start, 32) == Ok(input[start..start + 32])
  {
    GetDataWindow(input, start, 32);
    var r := GetData(input, start, 32).value;
    assert forall i :: 0 <= i < 32 ==> r[i] == input[start..start + 32][i];
  }

  /** A call with no input reads every length as zero. */
  lemma ModExpLengthsEmpty()
    ensures ModExpLengths([]) == (0, 0, 0)
  {
    ZeroWord(0);
    ZeroWord(32);
    ZeroWord(64);
  }

  lemma ZeroWord(start: U64)
    requires start <= 64
    ensures LengthWord([], start) == 0
  {
    GetDataWindow([], start, 32);
    var r := GetData([], start, 32).value;
    assert r == Zeros(32);
    FromBEZeros(32);
  }

  lemma {:induction false} FromBEZeros(n: nat)
    ensures FromBE(Zeros(n)) == 0
  {
    if n > 0 {
      FromBEZeros(n - 1);
      assert Zeros(n)[..n - 1] == Zeros(n - 1);
    }
  }
}
