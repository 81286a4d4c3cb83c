// The Solidity view of a storage slot (tracer/dep_tracer/sol_view.go): the
// path from a slot formula back to the mappings, offsets and constants a
// Solidity compiler folds into a storage key, and the `final_slot` hook of
// the logger (tracer/dep_tracer/logger.go) that asks for it.
module SolViews {
  import opened Common
  import opened Opcodes
  import opened Formulas
  import opened DepBytes
  import opened FormulaDeps
  import opened Logging
  import opened SimpleDb

  /** The line types, the bytes 'c', 'o' and 'm'. */
  const KIND_CONSTANT: Byte := 0x63
  const KIND_OFFSET: Byte := 0x6f
  const KIND_MAPPING: Byte := 0x6d

  datatype SolViewLine = SolViewLine(kind: Byte, data: seq<Byte>)

  /** The name `JSON` gives a line type; any other type panics. */
  function KindName(kind: Byte): (r: Option<string>)
    ensures r.Some? <==> kind == KIND_CONSTANT || kind == KIND_OFFSET || kind == KIND_MAPPING
  {
    if kind == KIND_CONSTANT then Some("constant")
    else if kind == KIND_OFFSET then Some("offset")
    else if kind == KIND_MAPPING then Some("mapping")
    else None
  }

  /** Every line has one of the three types. */
  predicate WellKinded(view: seq<SolViewLine>)
  {
    forall i :: 0 <= i < |view| ==> KindName(view[i].kind).Some?
  }

  /**
   * `SolView.JSON`: one (type name, data) pair per line, in order; the data
   * stays bytes here, its hex rendering is not modelled.
   */
  method Json(view: seq<SolViewLine>) returns (r: Result<seq<(string, seq<Byte>)>>)
    ensures r.Ok? <==> WellKinded(view)
    ensures r.Ok? ==> |r.value| == |view|
    ensures r.Ok? ==> forall i :: 0 <= i < |view| ==> r.value[i] == (KindName(view[i].kind).value, view[i].data)
  {
    var res: seq<(string, seq<Byte>)> := [];
    for i := 0 to |view|
      invariant WellKinded(view[..i])
      invariant |res| == i
      invariant forall j :: 0 <= j < i ==> res[j] == (KindName(view[j].kind).value, view[j].data)
    {
      var name := KindName(view[i].kind);
      if name.None? {
        assert !WellKinded(view) by {
          assert KindName(view[i].kind).None?;
        }
        return Fail("unknown type");
      }
      res := res + [(name.value, view[i].data)];
      assert view[..i + 1] == view[..i] + [view[i]];
    }
    assert view[..|view|] == view;
    r := Ok(res);
  }


  /** The `allZero` closure of `SolViewNew`. */
  method AllZeroBytes(s: seq<Byte>) returns (b: bool)
    ensures b <==> AllZero(s)
  {
    for i := 0 to |s|
      invariant AllZero(s[..i])
    {
      if s[i] != 0 {
        assert !AllZero(s) by {
          assert s[i] != 0;
        }
        return false;
      }
      assert s[..i + 1] == s[..i] + [s[i]];
    }
    assert s[..|s|] == s;
    return true;
  }

  /** How deep `SolViewNew` follows nested hashes and additions. */
  const SOL_VIEW_FUEL: nat := 1024

  /** The view `SolViewNew` gives a formula that is neither a hash nor an addition: its result, as a constant. */
  function ConstantView(f: Formula): (r: seq<SolViewLine>)
    ensures |r| == 1 && WellKinded(r) && r[0].kind == KIND_CONSTANT
  {
    [SolViewLine(KIND_CONSTANT, f.result)]
  }

  /**
   * `SolViewNew`: never empty and only of the three line types; a hash of
   * a preimage of 32 bytes or more ends in a mapping line holding the key
   * (the preimage less its last 32 bytes), a shorter one is a constant; an
   * addition with a hash operand ends in an offset line exactly when the
   * other operand is not all zeros; anything else is one constant line.
   */
  method SolViewNew(s: SimpleDB, f: Formula) returns (r: Result<seq<SolViewLine>>)
    requires s.Valid()
    modifies s`formulas
    ensures s.Valid() && Extends(old(s.formulas), s.formulas)
    ensures r.Ok? ==> |r.value| >= 1 && WellKinded(r.value)
    ensures f.opcode != OP_KECCAK && f.opcode != OP_ADD ==> r == Ok(ConstantView(f))
    ensures f.opcode == OP_KECCAK ==> KeccakViewSpec(s.p, old(s.formulas), s.formulasDB, f, r)
    ensures f.opcode == OP_ADD ==> AddViewSpec(s.p, old(s.formulas), s.formulasDB, f, r)
  {
    r := SolViewFuel(s, f, SOL_VIEW_FUEL);
  }

  /** What the hash case promises, the preimage looked up in `c`. */
  predicate KeccakViewSpec(p: Prims, c: Cache, db: KV, f: Formula, r: Result<seq<SolViewLine>>)
  {
    && (|f.operands| == 0 ==> r.Fail?)
    && (|f.operands| > 0 ==>
        var pre := KnownFormula(p, c, db, f.operands[0]);
        && (pre.Fail? ==> r.Fail?)
        && (pre.Ok? && |pre.value.result| < 32 ==> r == Ok(ConstantView(f)))
        && (pre.Ok? && |pre.value.result| >= 32 && r.Ok? ==>
              |r.value| >= 2 && Last(r.value).kind == KIND_MAPPING)
        && (pre.Ok? && 32 <= |pre.value.result| < U64_LIMIT && r.Ok?
              && (|pre.value.result| == 32 || pre.value.opcode != OP_CONCAT) ==>
              Last(r.value).data == pre.value.result[..|pre.value.result| - 32]))
  }

  /** What the addition case promises, the operands looked up in `c`. */
  predicate AddViewSpec(p: Prims, c: Cache, db: KV, f: Formula, r: Result<seq<SolViewLine>>)
  {
    && (|f.operands| < 2 ==> r.Fail?)
    && (|f.operands| >= 2 ==>
        var a := KnownFormula(p, c, db, f.operands[0]);
        var b := KnownFormula(p, c, db, f.operands[1]);
        && (a.Fail? || b.Fail? ==> r.Fail?)
        && (a.Ok? && b.Ok? && a.value.opcode != OP_KECCAK && b.value.opcode != OP_KECCAK ==> r == Ok(ConstantView(f)))
        && (a.Ok? && b.Ok? && (a.value.opcode == OP_KECCAK || b.value.opcode == OP_KECCAK) && r.Ok? ==>
              var other := if a.value.opcode == OP_KECCAK then b.value else a.value;
              |r.value| >= 1 && (Last(r.value) == SolViewLine(KIND_OFFSET, other.result) <==> !AllZero(other.result))))
  }

  method SolViewFuel(s: SimpleDB, f: Formula, fuel: nat) returns (r: Result<seq<SolViewLine>>)
    requires s.Valid()
    modifies s`formulas
    ensures s.Valid() && Extends(old(s.formulas), s.formulas)
    ensures r.Ok? ==> |r.value| >= 1 && WellKinded(r.value)
    ensures f.opcode != OP_KECCAK && f.opcode != OP_ADD ==> r == Ok(ConstantView(f))
    ensures f.opcode == OP_KECCAK ==> KeccakViewSpec(s.p, old(s.formulas), s.formulasDB, f, r)
    ensures f.opcode == OP_KECCAK && r.Ok? ==> Last(r.value).kind != KIND_OFFSET
    ensures f.opcode == OP_ADD ==> AddViewSpec(s.p, old(s.formulas), s.formulasDB, f, r)
    decreases fuel, 2
  {
    if f.opcode == OP_KECCAK {
      r := KeccakView(s, f, fuel);
    } else if f.opcode == OP_ADD {
      r := AddView(s, f, fuel);
    } else {
      r := Ok(ConstantView(f));
    }
  }

  /** The hash case: a preimage of 32 bytes or more is a mapping, a shorter one a constant. */
  method KeccakView(s: SimpleDB, f: Formula, fuel: nat) returns (r: Result<seq<SolViewLine>>)
    requires s.Valid() && f.opcode == OP_KECCAK
    modifies s`formulas
    ensures s.Valid() && Extends(old(s.formulas), s.formulas)
    ensures r.Ok? ==> |r.value| >= 1 && WellKinded(r.value) && Last(r.value).kind != KIND_OFFSET
    ensures KeccakViewSpec(s.p, old(s.formulas), s.formulasDB, f, r)
    decreases fuel, 1
  {
    if |f.operands| == 0 {
      return Fail("index out of range");
    }
    var pre := s.GetFormula(f.operands[0]);
    if pre.Fail? {
      return Fail(pre.msg);
    }
    if |pre.value.result| < 32 {
      return Ok(ConstantView(f));
    }
    r := MappingView(s, pre.value, fuel);
  }

  /** A mapping: the view of the slot (the last 32 preimage bytes), then the key as a mapping line. */
  method MappingView(s: SimpleDB, pre: Formula, fuel: nat) returns (r: Result<seq<SolViewLine>>)
    requires s.Valid() && |pre.result| >= 32
    modifies s`formulas
    ensures s.Valid() && Extends(old(s.formulas), s.formulas)
    ensures r.Ok? ==> |r.value| >= 2 && WellKinded(r.value) && Last(r.value).kind == KIND_MAPPING
    ensures r.Ok? && |pre.result| < U64_LIMIT && (|pre.result| == 32 || pre.opcode != OP_CONCAT) ==>
      Last(r.value).data == pre.result[..|pre.result| - 32]
    decreases fuel, 0
  {
    if fuel == 0 {
      return Fail("view nested too deeply");
    }
    var keyLen: U64 := (|pre.result| - 32) % U64_LIMIT;
    var slot := s.FormulaSlice(pre, keyLen, 32);
    if slot.Fail? {
      return Fail(slot.msg);
    }
    var sub := SolViewFuel(s, slot.value, fuel - 1);
    if sub.Fail? {
      return Fail(sub.msg);
    }
    var key := Prefix(s, pre, keyLen);
    if key.Fail? {
      return Fail(key.msg);
    }
    r := Ok(sub.value + [SolViewLine(KIND_MAPPING, key.value.result)]);
    assert Last(r.value) == SolViewLine(KIND_MAPPING, key.value.result);
    if |pre.result| < U64_LIMIT {
      assert keyLen == |pre.result| - 32;
    }
    assert WellKinded(r.value) by {
      assert forall i :: 0 <= i < |sub.value| ==> r.value[i] == sub.value[i];
    }
  }

  /** `FormulaSlice(g, 0, size)`: its bytes are the first `size` bytes of `g` wherever the slice is known. */
  method Prefix(s: SimpleDB, g: Formula, size: U64) returns (r: Result<Formula>)
    requires s.Valid()
    modifies s`formulas
    ensures s.Valid() && Extends(old(s.formulas), s.formulas)
    ensures r.Ok? && size <= |g.result| && (size == 0 || g.opcode != OP_CONCAT) ==> r.value.result == g.result[..size]
  {
    r := s.FormulaSlice(g, 0, size);
  }

  /** The addition case: a hash operand makes it an offset from a mapping, else it is a constant. */
  method AddView(s: SimpleDB, f: Formula, fuel: nat) returns (r: Result<seq<SolViewLine>>)
    requires s.Valid() && f.opcode == OP_ADD
    modifies s`formulas
    ensures s.Valid() && Extends(old(s.formulas), s.formulas)
    ensures r.Ok? ==> |r.value| >= 1 && WellKinded(r.value)
    ensures AddViewSpec(s.p, old(s.formulas), s.formulasDB, f, r)
    decreases fuel, 1
  {
    if |f.operands| < 2 {
      return Fail("index out of range");
    }
    ghost var c0 := s.formulas;
    var a := s.GetFormula(f.operands[0]);
    if a.Fail? {
      return Fail(a.msg);
    }
    ghost var c1 := s.formulas;
    var b := s.GetFormula(f.operands[1]);
    assert KnownFormula(s.p, c1, s.formulasDB, f.operands[1]) == KnownFormula(s.p, c0, s.formulasDB, f.operands[1]);
    if b.Fail? {
      return Fail(b.msg);
    }
    if a.value.opcode != OP_KECCAK && b.value.opcode != OP_KECCAK {
      return Ok(ConstantView(f));
    }
    if a.value.opcode == OP_KECCAK {
      r := OffsetView(s, a.value, b.value, fuel);
    } else {
      r := OffsetView(s, b.value, a.value, fuel);
    }
  }

  /** The view of the hash operand, then the other operand as an offset line unless it is all zeros. */
  method OffsetView(s: SimpleDB, slot: Formula, other: Formula, fuel: nat) returns (r: Result<seq<SolViewLine>>)
    requires s.Valid() && slot.opcode == OP_KECCAK
    modifies s`formulas
    ensures s.Valid() && Extends(old(s.formulas), s.formulas)
    ensures r.Ok? ==> |r.value| >= 1 && WellKinded(r.value)
    ensures r.Ok? ==> (Last(r.value) == SolViewLine(KIND_OFFSET, other.result) <==> !AllZero(other.result))
    decreases fuel, 0
  {
    if fuel == 0 {
      return Fail("view nested too deeply");
    }
    var sub := SolViewFuel(s, slot, fuel - 1);
    if sub.Fail? {
      return Fail(sub.msg);
    }
    var zero := AllZeroBytes(other.result);
    if !zero {
      r := Ok(sub.value + [SolViewLine(KIND_OFFSET, other.result)]);
      assert WellKinded(r.value) by {
        assert forall i :: 0 <= i < |sub.value| ==> r.value[i] == sub.value[i];
      }
    } else {
      r := sub;
    }
  }

  /** What `sstoreSolidity` prints: the view of the slot operand and the stored value's bytes. */
  datatype SolidityView = SolidityView(lines: seq<SolViewLine>, value: seq<Byte>)

  /**
   * `sstoreSolidity`: only a storage write or read can be viewed; the view
   * is that of its slot operand (operand 1), the value is the result of
   * operand 0.
   */
  method SStoreSolidity(s: SimpleDB, f: Formula) returns (r: Result<SolidityView>)
    requires s.Valid()
    modifies s`formulas
    ensures s.Valid() && Extends(old(s.formulas), s.formulas)
    ensures f.opcode != OP_SSTORE && f.opcode != OP_SLOAD ==> r.Fail?
    ensures |f.operands| < 2 ==> r.Fail?
    ensures r.Ok? ==> |r.value.lines| >= 1 && WellKinded(r.value.lines)
    ensures r.Ok? ==> f.operands[0] in s.formulas && s.formulas[f.operands[0]].formula.result == r.value.value
  {
    if f.opcode != OP_SSTORE && f.opcode != OP_SLOAD {
      return Fail("Trying to solidify strage opcode");
    }
    if |f.operands| < 2 {
      return Fail("index out of range");
    }
    var slot := s.GetFormula(f.operands[1]);
    if slot.Fail? {
      return Fail(slot.msg);
    }
    var view := SolViewNew(s, slot.value);
    if view.Fail? {
      return Fail(view.msg);
    }
    var value := s.GetFormula(f.operands[0]);
    if value.Fail? {
      return Fail(value.msg);
    }
    r := Ok(SolidityView(view.value, value.value.result));
  }

  /**
   * `LogFinalSlot` with the Solidity view: the final-slot event is logged,
   * and when it was written and the view is switched on, the first "crypto"
   * short formula must exist and is viewed.
   */
  method LogFinalSlot(s: SimpleDB, addr: Address, addrVersion: U64, codeAddr: Address, val: seq<DEPByte>)
    returns (ok: bool, f: Formula, outputs: map<string, seq<Formula>>, view: Option<SolidityView>, ghost sfs: seq<seq<Formula>>)
    requires s.Valid()
    modifies s`formulasWithShorts, s`formulas, s.shorts, s.logger`written
    ensures s.Valid()
    ensures ok ==> |sfs| == |s.shorts|
    ensures ok ==> outputs == Outputs(s.logger.toLog.finalSlotsFull, s.logger.toLog.finalSlotsShort, [f], s.Names(), sfs)
    ensures ok ==> (view.Some? <==> s.logger.toLog.solViewFinalSlots && |outputs| > 0)
    ensures ok && view.Some? ==> "crypto" in outputs && |outputs["crypto"]| > 0
    ensures view.Some? ==> |view.value.lines| >= 1 && WellKinded(view.value.lines)
  {
    ghost var before;
    ok, f, outputs, before, sfs := s.LogValue(FinalSlot, addr, addrVersion, codeAddr, val);
    view := None;
    if !ok || !(s.logger.toLog.solViewFinalSlots && |outputs| > 0) {
      return;
    }
    if "crypto" !in outputs || |outputs["crypto"]| == 0 {
      ok := false;
      return;
    }
    var sv := SStoreSolidity(s, outputs["crypto"][0]);
    if sv.Fail? {
      ok := false;
      return;
    }
    view := Some(sv.value);
  }
}
