// Byte provenance (tracer/dep_tracer/depbyte.go): every byte the tracer
// follows is a DEPByte, "byte `pos` of the result of the formula with hash
// `formula`".  Untouched memory and padding carry the init-zero constant.
module DepBytes {
  import opened Common
  import opened Opcodes
  import opened Formulas

  datatype DEPByte = DEPByte(pos: U64, formula: Hash)

  /** `ConstantInitZero` (constants.go:8): the formula behind never-written bytes. */
  function InitZeroFormula(p: Prims): (f: Formula)
    ensures f.opcode == OP_INIT_ZERO && f.result == [0] && f.operands == [] && Hashed(p, f)
  {
    ConstantNew(p, OP_INIT_ZERO, [0])
  }

  /** `ConstantZero` (constants.go:9). */
  function ZeroFormula(p: Prims): (f: Formula)
    ensures f.opcode == OP_CONSTANT && f.result == [0] && f.operands == [] && Hashed(p, f)
  {
    ConstantNew(p, OP_CONSTANT, [0])
  }

  /** The padding byte `DEPByte{0, ConstantInitZero.hash}`. */
  function InitZero(p: Prims): DEPByte
  {
    DEPByte(0, InitZeroFormula(p).hash)
  }

  /** `DEPByte.Bin`: 8-byte big-endian position, then the 32-byte formula hash. */
  function Bin(b: DEPByte): (r: seq<Byte>)
    ensures |r| == 40
  {
    BE64(b.pos) + b.formula
  }

  /** `DEPByteFromBin`: fails (Go panics) on fewer than 40 bytes; extra bytes are ignored. */
  function FromBin(val: seq<Byte>): (r: Result<DEPByte>)
    ensures r.Ok? <==> |val| >= 40
  {
    if |val| < 40 then Fail("slice bounds out of range")
    else
      Pow256Facts();
      Ok(DEPByte(FromBE(val[..8]), val[8..40]))
  }

  lemma BinRoundTrip(b: DEPByte)
    ensures FromBin(Bin(b)) == Ok(b)
  {
    var v := Bin(b);
    assert v[..8] == BE64(b.pos);
    assert v[8..40] == b.formula;
  }

  /** Distinct provenance records have distinct encodings. */
  lemma BinInjective(a: DEPByte, b: DEPByte)
    requires Bin(a) == Bin(b)
    ensures a == b
  {
    BinRoundTrip(a);
    BinRoundTrip(b);
  }

  function InitBytes(p: Prims, n: nat): (r: seq<DEPByte>)
    ensures |r| == n
  {
    seq(n, _ => InitZero(p))
  }

  /** `InitDEPBytes(size)`: `size` copies of the init-zero byte. */
  method InitDEPBytes(p: Prims, size: U64) returns (r: seq<DEPByte>)
    ensures |r| == size && forall i :: 0 <= i < size ==> r[i] == InitZero(p)
    ensures r == InitBytes(p, size)
  {
    r := [];
    var i := 0;
    while i < size
      invariant 0 <= i <= size
      invariant |r| == i && forall k :: 0 <= k < i ==> r[k] == InitZero(p)
    {
      r := r + [InitZero(p)];
      i := i + 1;
    }
  }

  /** The bytes of a formula's result, each pointing at its own position. */
  function FormulaBytes(f: Formula): (r: seq<DEPByte>)
    requires |f.result| < U64_LIMIT
    ensures |r| == |f.result|
  {
    seq(|f.result|, i requires 0 <= i < |f.result| => DEPByte(i, f.hash))
  }

  /** `FormulaDEPBytes`: position i of the result carries pos i and the formula's hash. */
  method FormulaDEPBytes(f: Formula) returns (r: seq<DEPByte>)
    requires |f.result| < U64_LIMIT
    ensures |r| == |f.result|
    ensures forall i :: 0 <= i < |r| ==> r[i] == DEPByte(i, f.hash)
    ensures r == FormulaBytes(f)
  {
    r := [];
    var i := 0;
    while i < |f.result|
      invariant 0 <= i <= |f.result|
      invariant |r| == i && forall k :: 0 <= k < i ==> r[k] == DEPByte(k, f.hash)
    {
      r := r + [DEPByte(i, f.hash)];
      i := i + 1;
    }
  }

  /**
   * `FormulaSliceDEPBytes`: panics when `offset + size` passes the end of the
   * result, otherwise positions `offset .. offset+size-1` of the formula.
   */
  method FormulaSliceDEPBytes(f: Formula, offset: U64, size: U64) returns (r: Result<seq<DEPByte>>)
    requires offset + size < U64_LIMIT
    ensures r.Fail? <==> offset + size > |f.result|
    ensures r.Ok? ==> |r.value| == size
    ensures r.Ok? ==> forall i :: 0 <= i < size ==> r.value[i] == DEPByte(offset + i, f.hash)
  {
    if offset + size > |f.result| {
      return Fail("formula size overflow");
    }
    var res: seq<DEPByte> := [];
    var i := 0;
    while i < size
      invariant 0 <= i <= size
      invariant |res| == i && forall k :: 0 <= k < i ==> res[k] == DEPByte(offset + k, f.hash)
    {
      res := res + [DEPByte(offset + i, f.hash)];
      i := i + 1;
    }
    r := Ok(res);
  }

  /**
   * `OverflowSliceDEPBytes`: `size` bytes of `input` from `offset`, with
   * init-zero bytes standing in for everything past the end of `input`.
   */
  function OverflowSlice(p: Prims, input: seq<DEPByte>, offset: nat, size: nat): (r: seq<DEPByte>)
    ensures |r| == size
    ensures forall i :: 0 <= i < size ==>
      r[i] == if offset + i < |input| then input[offset + i] else InitZero(p)
  {
    if offset >= |input| then InitBytes(p, size)
    else if offset + size > |input| then input[offset..] + InitBytes(p, offset + size - |input|)
    else input[offset..offset + size]
  }
}
