// Formulas: the nodes of the dependency graph (tracer/dep_tracer/formula.go).
// A formula is an opcode, the bytes it evaluated to, the hashes of its operand
// formulas, and its own hash.  The hash is SHA-256 over the opcode followed by
// the result (constant opcodes) or by the operand hashes (all others).
module Formulas {
  import opened Common
  import opened Opcodes

  datatype Formula = Formula(opcode: Byte, result: seq<Byte>, operands: seq<Hash>, hash: Hash)

  /** The hashes of formulas, in order. */
  function HashesOf(fs: seq<Formula>): (hs: seq<Hash>)
    ensures |hs| == |fs| && forall i :: 0 <= i < |fs| ==> hs[i] == fs[i].hash
  {
    seq(|fs|, i requires 0 <= i < |fs| => fs[i].hash)
  }

  /** The bytes `init_hash` gives to SHA-256. */
  function HashPreimage(p: Prims, opcode: Byte, result: seq<Byte>, operands: seq<Hash>): seq<Byte>
  {
    [opcode] + (if p.isConstant(opcode) then result else Flatten(operands))
  }

  function HashOf(p: Prims, opcode: Byte, result: seq<Byte>, operands: seq<Hash>): Hash
  {
    p.sha256(HashPreimage(p, opcode, result, operands))
  }

  /** A formula whose hash is the one `init_hash` computes for it. */
  predicate Hashed(p: Prims, f: Formula)
  {
    f.hash == HashOf(p, f.opcode, f.result, f.operands)
  }

  /** `init_hash`: a non-zero cached hash is kept, a zero one is computed. */
  function InitHash(p: Prims, f: Formula): (r: Formula)
    ensures r.opcode == f.opcode && r.result == f.result && r.operands == f.operands
    ensures f.hash != ZERO_HASH ==> r.hash == f.hash
    ensures f.hash == ZERO_HASH ==> Hashed(p, r)
  {
    if f.hash != ZERO_HASH then f
    else f.(hash := HashOf(p, f.opcode, f.result, f.operands))
  }

  /** The hash is computed once: re-running `init_hash` changes nothing. */
  lemma InitHashIdempotent(p: Prims, f: Formula)
    ensures InitHash(p, InitHash(p, f)) == InitHash(p, f)
  {
  }

  function ConstantNew(p: Prims, opcode: Byte, result: seq<Byte>): (f: Formula)
    ensures f.opcode == opcode && f.result == result && f.operands == []
    ensures Hashed(p, f)
  {
    InitHash(p, Formula(opcode, result, [], ZERO_HASH))
  }

  function FormulaNew(p: Prims, opcode: Byte, result: seq<Byte>, operands: seq<Hash>): (f: Formula)
    ensures f.opcode == opcode && f.result == result && f.operands == operands
    ensures Hashed(p, f)
  {
    InitHash(p, Formula(opcode, result, operands, ZERO_HASH))
  }

  /**
   * For a non-constant opcode the result bytes do not enter the hash: two
   * formulas over the same operands share a hash whatever they evaluated to;
   * for a constant opcode the operands do not enter it.
   */
  lemma HashInputs(p: Prims, op: Byte, r1: seq<Byte>, r2: seq<Byte>, o1: seq<Hash>, o2: seq<Hash>)
    ensures !p.isConstant(op) && o1 == o2 ==> FormulaNew(p, op, r1, o1).hash == FormulaNew(p, op, r2, o2).hash
    ensures p.isConstant(op) && r1 == r2 ==> FormulaNew(p, op, r1, o1).hash == FormulaNew(p, op, r2, o2).hash
  {
  }

  predicate Encodable(f: Formula)
  {
    |f.result| < U64_LIMIT && |f.operands| < U64_LIMIT
  }

  /**
   * `Formula.Bin`: opcode, BE64 result length, result, BE64 operand count,
   * operands.  The lengths are written as `uint64`, i.e. modulo 2^64.
   */
  function Bin(f: Formula): (r: seq<Byte>)
    ensures |r| == 17 + |f.result| + 32 * |f.operands|
    ensures r[0] == f.opcode
  {
    [f.opcode] + BE(|f.result|, 8) + f.result + BE(|f.operands|, 8) + Flatten(f.operands)
  }

  /**
   * What `FormulaBin` reads from `val`: it fails (Go panics on the slice
   * bounds) when the buffer ends before the announced result or operands.
   * Bytes after the last operand are ignored.  The hash is recomputed.
   */
  function Decode(p: Prims, val: seq<Byte>): (r: Result<Formula>)
    ensures r.Ok? ==> Hashed(p, r.value)
    ensures r.Ok? ==> |val| >= 17 + |r.value.result| + 32 * |r.value.operands|
    ensures r.Ok? ==> Encodable(r.value)
  {
    if |val| < 9 then Fail("slice bounds out of range")
    else
      Pow256Facts();
      var n := FromBE(val[1..9]);
      if |val| < 17 + n then Fail("slice bounds out of range")
      else
        var m := FromBE(val[9 + n..17 + n]);
        if |val| < 17 + n + 32 * m then Fail("slice bounds out of range")
        else Ok(FormulaNew(p, val[0], val[9..9 + n], Chunks(val[17 + n..], m)))
  }

  /** `FormulaBin(f.Bin())` gives back `f` for every formula built by `FormulaNew`/`ConstantNew`. */
  lemma BinRoundTrip(p: Prims, f: Formula)
    requires Encodable(f) && Hashed(p, f)
    ensures Decode(p, Bin(f)) == Ok(f)
  {
    var val := Bin(f);
    var n := |f.result|;
    var m := |f.operands|;
    assert val[1..9] == BE64(n);
    assert val[9..9 + n] == f.result;
    assert val[9 + n..17 + n] == BE64(m);
    assert val[17 + n..] == Flatten(f.operands);
    ChunksOfFlatten(f.operands);
  }

  /** `FormulaBin`: walks an index through the buffer, one operand per iteration. */
  method FormulaBin(p: Prims, val: seq<Byte>) returns (r: Result<Formula>)
    ensures r == Decode(p, val)
  {
    if |val| < 9 {
      return Fail("slice bounds out of range");
    }
    var opcode := val[0];
    var i := 1;
    var resultSize := FromBE(val[i..i + 8]);
    i := i + 8;
    if |val| < i + resultSize + 8 {
      return Fail("slice bounds out of range");
    }
    var result := val[i..i + resultSize];
    i := i + resultSize;
    var operandsSize := FromBE(val[i..i + 8]);
    i := i + 8;
    ghost var start := i;
    var operands: seq<Hash> := [];
    var j := 0;
    while j < operandsSize
      invariant 0 <= j <= operandsSize
      invariant i == start + 32 * j <= |val|
      invariant |operands| == j
      invariant forall k :: 0 <= k < j ==> operands[k] == val[start + 32 * k..start + 32 * k + 32]
    {
      if |val| < i + 32 {
        return Fail("slice bounds out of range");
      }
      operands := operands + [val[i..i + 32]];
      i := i + 32;
      j := j + 1;
    }
    forall k | 0 <= k < operandsSize
      ensures Chunks(val[start..], operandsSize)[k] == operands[k]
    {
      assert val[start..][32 * k..32 * k + 32] == val[start + 32 * k..start + 32 * k + 32];
    }
    assert operands == Chunks(val[start..], operandsSize);
    r := Ok(FormulaNew(p, opcode, result, operands));
  }
}
