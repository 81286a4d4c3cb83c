// The `Handle` methods of the precompile `Data*` values
// (tracer/dep_tracer/global.go:492-653): each depends on slices of the
// frame's calldata, builds the formula (or formulas) of the precompile's
// output over them, and returns their bytes.
module PrecompileHandles {
  import opened Common
  import opened Opcodes
  import opened Formulas
  import opened DepBytes
  import opened SimpleDb
  import opened StackedFrames
  import opened Transactions
  import opened Precompiles
  import opened Handles
  import opened FormulaDeps

  /** The hash of the init-zero formula, `n` times: the operands of the zero bytes an address is padded with. */
  function ZeroHashes(p: Prims, n: nat): (r: seq<Hash>)
    ensures |r| == n && forall i :: 0 <= i < n ==> r[i] == InitZeroFormula(p).hash
  {
    seq(n, _ => InitZeroFormula(p).hash)
  }

  /** The `args` loop of the EcRecover and Ripemd160 handles. */
  method ZeroArgs(p: Prims, n: nat) returns (args: seq<Hash>)
    ensures args == ZeroHashes(p, n)
  {
    args := [];
    var h := InitZeroFormula(p).hash;
    var i := 0;
    while i < n
      invariant 0 <= i <= n && args == ZeroHashes(p, i)
    {
      args := args + [h];
      i := i + 1;
    }
  }

  /** The calldata slices of one EcPairing point pair: six 32-byte words from offset `i`, offsets wrapping as `uint64`. */
  function PairSlices(p: Prims, d: seq<DEPByte>, i: U64): (r: seq<seq<DEPByte>>)
    ensures |r| == 6 && forall k :: 0 <= k < 6 ==> r[k] == OverflowSlice(p, d, Add64(i, 32 * k), 32)
  {
    seq(6, k requires 0 <= k < 6 => OverflowSlice(p, d, Add64(i, 32 * k), 32))
  }

  /**
   * The EcPairing slices from offset `i` on: one group of six per 192 bytes
   * started.  The loop counter is a `uint64`; a Go slice is shorter than
   * 2^63 bytes, so it never reaches 2^64.
   */
  function PairingSlices(p: Prims, d: seq<DEPByte>, i: nat): seq<seq<DEPByte>>
    decreases |d| - i
  {
    if i >= |d| || i >= U64_LIMIT then [] else PairSlices(p, d, i) + PairingSlices(p, d, i + 192)
  }

  /** Six slices for every 192 bytes of calldata, the last group counted when only partly there. */
  lemma {:induction false} PairingSlicesCount(p: Prims, d: seq<DEPByte>, i: nat)
    requires |d| < U64_LIMIT
    ensures |PairingSlices(p, d, i)| == if i >= |d| then 0 else 6 * ((|d| - i + 191) / 192)
    decreases |d| - i
  {
    if i < |d| {
      PairingSlicesCount(p, d, i + 192);
      var m := |d| - i;
      if m > 192 {
        assert (m + 191) / 192 == 1 + (m - 192 + 191) / 192;
      }
    }
  }

  /** The EcPairing loop: `i` from 0 in steps of 192 while below the calldata's length. */
  method PairingInputs(p: Prims, d: seq<DEPByte>) returns (ins: seq<seq<DEPByte>>)
    ensures ins == PairingSlices(p, d, 0)
  {
    ins := [];
    var i := 0;
    while i < |d| && i < U64_LIMIT
      invariant ins + PairingSlices(p, d, i) == PairingSlices(p, d, 0)
      decreases |d| - i
    {
      var group := PairSlices(p, d, i);
      ghost var rest := PairingSlices(p, d, i + 192);
      assert PairingSlices(p, d, i) == group + rest;
      assert (ins + group) + rest == ins + (group + rest);
      ins := ins + group;
      i := i + 192;
    }
    assert PairingSlices(p, d, i) == [];
  }

  /** The Blake2F input's five fields: rounds (4 bytes), h (64), m (128), t (16) and the final flag (1). */
  function Blake2FSlices(p: Prims, d: seq<DEPByte>): seq<seq<DEPByte>>
  {
    [OverflowSlice(p, d, 0, 4), OverflowSlice(p, d, 4, 64), OverflowSlice(p, d, 68, 128),
     OverflowSlice(p, d, 196, 16), OverflowSlice(p, d, 212, 1)]
  }

  /** The ModExp base, exponent and modulus slices, one after the other from offset 96; the `uint64` offsets wrap. */
  function ModExpSlices(p: Prims, d: seq<DEPByte>, bSize: U64, eSize: U64, mSize: U64): seq<seq<DEPByte>>
  {
    var i1 := Add64(96, bSize);
    var i2 := Add64(i1, eSize);
    [OverflowSlice(p, d, 96, bSize), OverflowSlice(p, d, i1, eSize), OverflowSlice(p, d, i2, mSize)]
  }

  /** The calldata slices each precompile depends on, in the order it calls `FormulaDepWithShorts`. */
  function PrecompileInputs(p: Prims, pd: PrecompileData, d: seq<DEPByte>): seq<seq<DEPByte>>
  {
    match pd
    case DataPrecompileEcRecover(_) =>
      [OverflowSlice(p, d, 0, 32), OverflowSlice(p, d, 32, 32), OverflowSlice(p, d, 64, 32), OverflowSlice(p, d, 96, 32)]
    case DataPrecompileSha256(_) => [d]
    case DataPrecompileRipemd160(_) => [d]
    case DataPrecompileIdentity(_) => []
    case DataPrecompileModExp(_, b, e, m) => ModExpSlices(p, d, b, e, m)
    case DataPrecompileEcAdd(_) =>
      [OverflowSlice(p, d, 0, 32), OverflowSlice(p, d, 32, 32), OverflowSlice(p, d, 64, 32), OverflowSlice(p, d, 96, 32)]
    case DataPrecompileEcMul(_) =>
      [OverflowSlice(p, d, 0, 32), OverflowSlice(p, d, 32, 32), OverflowSlice(p, d, 64, 32)]
    case DataPrecompileEcPairing(_) => PairingSlices(p, d, 0)
    case DataPrecompileBlake2F(_) => Blake2FSlices(p, d)
    case DataPointEvaluation(_) => [d]
  }

  /** Two slices that meet make one: the bytes from `o` for `a`, then from `o + a` for `b`. */
  lemma AdjacentSlices(p: Prims, d: seq<DEPByte>, o: nat, a: nat, b: nat)
    ensures OverflowSlice(p, d, o, a) + OverflowSlice(p, d, o + a, b) == OverflowSlice(p, d, o, a + b)
  {
    var l := OverflowSlice(p, d, o, a) + OverflowSlice(p, d, o + a, b);
    var r := OverflowSlice(p, d, o, a + b);
    forall i | 0 <= i < a + b
      ensures l[i] == r[i]
    {
      if i >= a {
        assert l[i] == OverflowSlice(p, d, o + a, b)[i - a];
      }
    }
  }

  /** The five Blake2F fields cover the first 213 bytes of the input exactly, in order. */
  lemma Blake2FCoversInput(p: Prims, d: seq<DEPByte>)
    ensures var s := Blake2FSlices(p, d); s[0] + s[1] + s[2] + s[3] + s[4] == OverflowSlice(p, d, 0, 213)
  {
    AdjacentSlices(p, d, 0, 4, 64);
    AdjacentSlices(p, d, 0, 68, 128);
    AdjacentSlices(p, d, 0, 196, 16);
    AdjacentSlices(p, d, 0, 212, 1);
  }

  /**
   * Without wrap-around the base, exponent and modulus are consecutive:
   * together they are the `bSize + eSize + mSize` bytes after the three
   * length words.
   */
  lemma ModExpCoversInput(p: Prims, d: seq<DEPByte>, bSize: U64, eSize: U64)
    requires 96 + bSize + eSize < U64_LIMIT
    ensures forall mSize: U64 {:trigger ModExpSlices(p, d, bSize, eSize, mSize)} :: var s := ModExpSlices(p, d, bSize, eSize, mSize);
      s[0] + s[1] + s[2] == OverflowSlice(p, d, 96, bSize + eSize + mSize)
  {
    forall mSize: U64
      ensures var s := ModExpSlices(p, d, bSize, eSize, mSize); s[0] + s[1] + s[2] == OverflowSlice(p, d, 96, bSize + eSize + mSize)
    {
      AdjacentSlices(p, d, 96, bSize, eSize);
      AdjacentSlices(p, d, 96, bSize + eSize, mSize);
    }
  }

  /** The precompiles that return nothing when their output is empty, before reading any input. */
  predicate ReturnsNothing(pd: PrecompileData)
  {
    |pd.result| < 1 &&
    (pd.DataPrecompileEcRecover? || pd.DataPrecompileModExp? || pd.DataPrecompileEcAdd? || pd.DataPrecompileEcMul?
     || pd.DataPrecompileEcPairing? || pd.DataPrecompileBlake2F?)
  }

  /**
   * The returned bytes, given the hashes `hs` of the dependency formulas
   * of the inputs: the formula of the output over them; for EcRecover and
   * Ripemd160 a `CONCAT` of twelve init-zero bytes and the formula of the
   * 20-byte address; for EcAdd and EcMul the X formula's bytes then the Y
   * formula's; for Identity the calldata itself.  An output too short for
   * the slice the handler takes panics.
   */
  function PrecompileReturned(p: Prims, pd: PrecompileData, d: seq<DEPByte>, hs: seq<Hash>): (r: Result<seq<DEPByte>>)
    ensures r.Ok? && !pd.DataPrecompileIdentity? && !pd.DataPrecompileEcAdd? && !pd.DataPrecompileEcMul? ==> |r.value| == |pd.result|
    ensures r.Ok? && (pd.DataPrecompileEcAdd? || pd.DataPrecompileEcMul?) ==> |r.value| == 64
    ensures pd.DataPrecompileIdentity? ==> r == Ok(d)
  {
    var res := pd.result;
    match pd
    case DataPrecompileEcRecover(_) => Concat20(p, OP_EC_RECOVER, res, hs)
    case DataPrecompileRipemd160(_) => Concat20(p, OP_RIPEMD160, res, hs)
    case DataPrecompileIdentity(_) => Ok(d)
    case DataPrecompileEcAdd(_) => PointXY(p, OP_EC_ADD_X, OP_EC_ADD_Y, res, hs)
    case DataPrecompileEcMul(_) => PointXY(p, OP_EC_MUL_X, OP_EC_MUL_Y, res, hs)
    case DataPrecompileSha256(_) => Single(p, OP_SHA256, res, hs)
    case DataPrecompileModExp(_, _, _, _) => Single(p, OP_MOD_EXP, res, hs)
    case DataPrecompileEcPairing(_) => Single(p, OP_EC_PAIRING, res, hs)
    case DataPrecompileBlake2F(_) => Single(p, OP_BLAKE2F, res, hs)
    case DataPointEvaluation(_) => Single(p, OP_POINT_EVALUATION, res, hs)
  }

  /** The bytes of one formula `op` over the dependencies, one per output byte. */
  function Single(p: Prims, op: Byte, res: seq<Byte>, hs: seq<Hash>): (r: Result<seq<DEPByte>>)
    ensures r.Ok? <==> |res| < U64_LIMIT
    ensures r.Ok? ==> |r.value| == |res| && forall i :: 0 <= i < |res| ==> r.value[i].pos == i
  {
    if |res| >= U64_LIMIT then Fail("result too long") else Ok(FormulaBytes(FormulaNew(p, op, res, hs)))
  }

  /** A 32-byte result holding a 20-byte value: `CONCAT` of twelve init-zero bytes and the formula `op` of the last 20. */
  function Concat20(p: Prims, op: Byte, res: seq<Byte>, hs: seq<Hash>): (r: Result<seq<DEPByte>>)
    ensures r.Ok? <==> 12 <= |res| < U64_LIMIT
    ensures r.Ok? ==> |r.value| == |res| && forall i :: 0 <= i < |res| ==> r.value[i].pos == i
  {
    if |res| < 12 then Fail("slice bounds out of range")
    else if |res| >= U64_LIMIT then Fail("result too long")
    else
      var inner := FormulaNew(p, op, res[12..], hs);
      Ok(FormulaBytes(FormulaNew(p, OP_CONCAT, res, ZeroHashes(p, 12) + [inner.hash])))
  }

  /** A 64-byte curve point: the X formula over the first 32 bytes, then the Y formula over the next 32. */
  function PointXY(p: Prims, opX: Byte, opY: Byte, res: seq<Byte>, hs: seq<Hash>): (r: Result<seq<DEPByte>>)
    ensures r.Ok? <==> |res| >= 64
    ensures r.Ok? ==> (|r.value| == 64
      && r.value[..32] == FormulaBytes(FormulaNew(p, opX, res[0..32], hs))
      && r.value[32..] == FormulaBytes(FormulaNew(p, opY, res[32..64], hs)))
  {
    if |res| < 64 then Fail("slice bounds out of range")
    else Ok(FormulaBytes(FormulaNew(p, opX, res[0..32], hs)) + FormulaBytes(FormulaNew(p, opY, res[32..64], hs)))
  }

  /** The inputs, with the EcPairing ones from its loop. */
  method InputsOf(p: Prims, pd: PrecompileData, d: seq<DEPByte>) returns (ins: seq<seq<DEPByte>>)
    ensures ins == PrecompileInputs(p, pd, d)
  {
    if pd.DataPrecompileEcPairing? {
      ins := PairingInputs(p, d);
    } else {
      ins := PrecompileInputs(p, pd, d);
    }
  }

  /** The formula and the bytes of a `Concat20` result, built in the database. */
  method NewConcat20(db: SimpleDB, op: Byte, res: seq<Byte>, hs: seq<Hash>) returns (r: Result<seq<DEPByte>>)
    requires db.Valid()
    modifies db`formulasWithShorts, db`formulas, db.shorts, db.logger`written
    ensures db.Valid() && Extends(old(db.formulasWithShorts), db.formulasWithShorts)
    ensures r.Ok? ==> r == Concat20(db.p, op, res, hs)
  {
    if |res| < 12 {
      return Fail("slice bounds out of range");
    }
    if |res| >= U64_LIMIT {
      return Fail("result too long");
    }
    var inner := NewFormula(db, op, res[12..], hs);
    if inner.Fail? {
      return Fail(inner.msg);
    }
    var args := ZeroArgs(db.p, 12);
    var outer := NewFormula(db, OP_CONCAT, res, args + [inner.value.hash]);
    if outer.Fail? {
      return Fail(outer.msg);
    }
    r := Ok(FormulaBytes(outer.value));
  }

  /** The two formulas and the bytes of a `PointXY` result, built in the database. */
  method NewPointXY(db: SimpleDB, opX: Byte, opY: Byte, res: seq<Byte>, hs: seq<Hash>) returns (r: Result<seq<DEPByte>>)
    requires db.Valid()
    modifies db`formulasWithShorts, db`formulas, db.shorts, db.logger`written
    ensures db.Valid() && Extends(old(db.formulasWithShorts), db.formulasWithShorts)
    ensures r.Ok? ==> r == PointXY(db.p, opX, opY, res, hs)
  {
    if |res| < 64 {
      return Fail("slice bounds out of range");
    }
    var x := NewFormula(db, opX, res[0..32], hs);
    if x.Fail? {
      return Fail(x.msg);
    }
    var y := NewFormula(db, opY, res[32..64], hs);
    if y.Fail? {
      return Fail(y.msg);
    }
    r := Ok(FormulaBytes(x.value) + FormulaBytes(y.value));
  }

  /** One formula over the dependencies, and its bytes. */
  method NewSingle(db: SimpleDB, op: Byte, res: seq<Byte>, hs: seq<Hash>) returns (r: Result<seq<DEPByte>>)
    requires db.Valid()
    modifies db`formulasWithShorts, db`formulas, db.shorts, db.logger`written
    ensures db.Valid() && Extends(old(db.formulasWithShorts), db.formulasWithShorts)
    ensures r.Ok? ==> r == Single(db.p, op, res, hs)
  {
    if |res| >= U64_LIMIT {
      return Fail("result too long");
    }
    var g := NewFormula(db, op, res, hs);
    if g.Fail? {
      return Fail(g.msg);
    }
    r := Ok(FormulaBytes(g.value));
  }

  /** The dependencies of the inputs, then the output's formulas: the bytes a precompile handle returns. */
  method PrecompileBytes(db: SimpleDB, pd: PrecompileData, d: seq<DEPByte>) returns (r: Result<seq<DEPByte>>, hs: seq<Hash>)
    requires db.Valid()
    modifies db`formulasWithShorts, db`formulas, db.shorts, db.logger`written
    ensures db.Valid()
    ensures r.Ok? ==> var ins := PrecompileInputs(db.p, pd, d);
      && DepsResolve(db.p, db.formulasWithShorts, ins) && hs == DepOperands(db.p, db.formulasWithShorts, ins, false)
      && r == PrecompileReturned(db.p, pd, d, hs)
  {
    var ins := InputsOf(db.p, pd, d);
    var ok, fs := Deps(db, ins);
    hs := HashesOf(fs);
    if !ok {
      return Fail("dependency failed"), hs;
    }
    ghost var c0 := db.formulasWithShorts;
    r := NewReturned(db, pd, d, hs);
    forall i | 0 <= i < |ins|
      ensures DepOf(db.p, db.formulasWithShorts, ins[i]) == DepOf(db.p, c0, ins[i])
    {
      DepOfExtends(db.p, c0, db.formulasWithShorts, ins[i]);
    }
  }

  /** The output's formulas over the dependency hashes `hs`, built in the database. */
  method NewReturned(db: SimpleDB, pd: PrecompileData, d: seq<DEPByte>, hs: seq<Hash>) returns (r: Result<seq<DEPByte>>)
    requires db.Valid()
    modifies db`formulasWithShorts, db`formulas, db.shorts, db.logger`written
    ensures db.Valid() && Extends(old(db.formulasWithShorts), db.formulasWithShorts)
    ensures r.Ok? ==> r == PrecompileReturned(db.p, pd, d, hs)
  {
    var res := pd.result;
    match pd
    case DataPrecompileEcRecover(_) => r := NewConcat20(db, OP_EC_RECOVER, res, hs);
    case DataPrecompileRipemd160(_) => r := NewConcat20(db, OP_RIPEMD160, res, hs);
    case DataPrecompileIdentity(_) => r := Ok(d);
    case DataPrecompileEcAdd(_) => r := NewPointXY(db, OP_EC_ADD_X, OP_EC_ADD_Y, res, hs);
    case DataPrecompileEcMul(_) => r := NewPointXY(db, OP_EC_MUL_X, OP_EC_MUL_Y, res, hs);
    case DataPrecompileSha256(_) => r := NewSingle(db, OP_SHA256, res, hs);
    case DataPrecompileModExp(_, _, _, _) => r := NewSingle(db, OP_MOD_EXP, res, hs);
    case DataPrecompileEcPairing(_) => r := NewSingle(db, OP_EC_PAIRING, res, hs);
    case DataPrecompileBlake2F(_) => r := NewSingle(db, OP_BLAKE2F, res, hs);
    case DataPointEvaluation(_) => r := NewSingle(db, OP_POINT_EVALUATION, res, hs);
  }

  /**
   * What a precompile handle leaves when it reads its input: `t` returned
   * from with the bytes built over the hashes of the dependency formulas
   * of its inputs under the final cache, in input order, as
   * `PrecompileReturned` gives them.
   */
  ghost predicate ReturnedOver(p: Prims, cache: Cache, pd: PrecompileData, t: Tx, t1: Tx)
  {
    && CurFrame(t).Ok?
    && var ins := PrecompileInputs(p, pd, CurFrame(t).value.calldata);
    && DepsResolve(p, cache, ins)
    && var bytes := PrecompileReturned(p, pd, CurFrame(t).value.calldata, DepOperands(p, cache, ins, false));
    && bytes.Ok? && ReturnTx(t, p, bytes.value, pd.result) == Ok(t1)
  }

  /**
   * The precompile handles: an empty output of EcRecover, ModExp, EcAdd,
   * EcMul, EcPairing or Blake2F returns nothing; otherwise the bytes built
   * over the calldata's slices are returned along with the output.
   */
  method HandlePrecompile(state: TransactionDB, pd: PrecompileData) returns (ok: bool)
    requires state.db.Valid()
    modifies state, state.db`formulasWithShorts, state.db`formulas, state.db.shorts, state.db.logger`written
    ensures state.db.Valid()
    ensures ReturnsNothing(pd) ==> var r := ReturnTx(old(state.Value()), state.db.p, [], []);
      (ok <==> r.Ok?) && (ok ==> state.Value() == r.value)
    ensures !ReturnsNothing(pd) && ok ==> ReturnedOver(state.db.p, state.db.formulasWithShorts, pd, old(state.Value()), state.Value())
  {
    if ReturnsNothing(pd) {
      ok := state.Return([], []);
      return;
    }
    ok := ReturnPrecompile(state, pd);
  }

  /** A precompile that returns bytes: its formulas over the frame's calldata, then the frame's return. */
  method ReturnPrecompile(state: TransactionDB, pd: PrecompileData) returns (ok: bool)
    requires state.db.Valid()
    modifies state, state.db`formulasWithShorts, state.db`formulas, state.db.shorts, state.db.logger`written
    ensures state.db.Valid()
    ensures ok ==> ReturnedOver(state.db.p, state.db.formulasWithShorts, pd, old(state.Value()), state.Value())
  {
    var cur := state.Cur();
    if cur.Fail? {
      return false;
    }
    var r, hs := PrecompileBytes(state.db, pd, cur.value.calldata);
    if r.Fail? {
      return false;
    }
    ok := state.Return(r.value, pd.result);
  }
}
