// Formula shortening (tracer/dep_tracer/formula_shorterning.go): for every
// formula a "shorterner" keeps a child formula that only retains the
// operations a protected-opcode definition cares about (for the crypto
// definition: storage, hashing and the precompiles).  Everything else
// collapses into a constant of the value it computed.
//
// `Shortern` needs the formula database, so it is a method of `SimpleDB`
// (simpledb.dfy); this module holds the definitions, the mapping entries and
// their byte layout, the mapping cache, and the pure rules `Shortern` follows.
module Shorterning {
  import opened Common
  import opened Opcodes
  import opened Formulas
  import opened DepBytes

  datatype ProtectedDefinition = ProtectedDefinition(ops: set<Byte>, name: string)

  predicate IsProtected(d: ProtectedDefinition, op: Byte)
  {
    op in d.ops
  }

  /** `NewProtectedDefinition`: the opcodes of the list, inserted one by one. */
  method NewProtectedDefinition(name: string, ops: seq<Byte>) returns (r: ProtectedDefinition)
    ensures r.name == name
    ensures forall op :: IsProtected(r, op) <==> op in ops
  {
    var set_: set<Byte> := {};
    var i := 0;
    while i < |ops|
      invariant 0 <= i <= |ops|
      invariant forall op :: op in set_ <==> op in ops[..i]
    {
      set_ := set_ + {ops[i]};
      i := i + 1;
    }
    assert ops[..|ops|] == ops;
    r := ProtectedDefinition(set_, name);
  }

  const CRYPTO_OPS: seq<Byte> := [
    OP_SLOAD, OP_SSTORE, OP_KECCAK, OP_CODE_KECCAK,
    OP_EC_RECOVER, OP_SHA256, OP_RIPEMD160, OP_MOD_EXP, OP_EC_ADD_X,
    OP_EC_ADD_Y, OP_EC_MUL_X, OP_EC_MUL_Y, OP_EC_PAIRING, OP_BLAKE2F]

  /** `CryptoProtectedDefinition`: storage, Keccak and the precompile results, named "crypto". */
  method CryptoProtectedDefinition() returns (r: ProtectedDefinition)
    ensures r.name == "crypto"
    ensures forall op :: IsProtected(r, op) <==> op in CRYPTO_OPS
    ensures !IsProtected(r, OP_INIT_ZERO) && !IsProtected(r, OP_CONSTANT) && !IsProtected(r, OP_CONCAT)
  {
    r := NewProtectedDefinition("crypto", CRYPTO_OPS);
  }

  /**
   * A mapping entry: the child formula's hash and whether it is protected,
   * and for addressable opcodes the entry of the formula's first operand
   * (its "source"); a zero `sourceHash` means there is none.
   */
  datatype HashAndProtected = HashAndProtected(hash: Hash, protected: bool, sourceHash: Hash, sourceProtected: bool)
  {
    /** `HashAndProtected.Bin`: hash, flag byte, and only for a non-zero source its hash and flag. */
    function Bin(): (r: seq<Byte>)
      ensures |r| == if sourceHash == ZERO_HASH then 33 else 66
      ensures r[..32] == hash && r[32] == Flag(protected)
      ensures sourceHash != ZERO_HASH ==> r[33..65] == sourceHash && r[65] == Flag(sourceProtected)
    {
      hash + [Flag(protected)]
        + (if sourceHash != ZERO_HASH then sourceHash + [Flag(sourceProtected)] else [])
    }
  }

  const NO_ENTRY: HashAndProtected := HashAndProtected(ZERO_HASH, false, ZERO_HASH, false)

  function Flag(b: bool): Byte
  {
    if b then 1 else 0
  }

  /**
   * `HashAndProtectedFromBin`: fails (Go panics on an index) on fewer than 33
   * bytes, or on more than 33 but fewer than 66; any non-zero flag byte is true.
   */
  function HashAndProtectedFromBin(val: seq<Byte>): (r: Result<HashAndProtected>)
    ensures r.Ok? <==> |val| == 33 || |val| >= 66
  {
    if |val| < 33 then Fail("index out of range")
    else if |val| == 33 then Ok(HashAndProtected(val[..32], val[32] != 0, ZERO_HASH, false))
    else if |val| < 66 then Fail("index out of range")
    else Ok(HashAndProtected(val[..32], val[32] != 0, val[33..65], val[65] != 0))
  }

  /**
   * The layout round-trips exactly for the entries it can represent: a
   * protected source with a zero source hash is written without its flag.
   */
  lemma BinRoundTrip(hp: HashAndProtected)
    ensures HashAndProtectedFromBin(hp.Bin()) == Ok(hp) <==> hp.sourceHash != ZERO_HASH || !hp.sourceProtected
  {
    var b := hp.Bin();
    if hp.sourceHash != ZERO_HASH {
      assert b[33..65] == hp.sourceHash;
    }
  }

  // ---- the rules of Shortern (formula_shorterning.go:124-192) ----

  /** A loaded child whose entry has a source stands for that source. */
  function EffectiveChild(c: HashAndProtected): (r: HashAndProtected)
    ensures r.sourceHash == ZERO_HASH && !r.sourceProtected
    ensures c.sourceHash == ZERO_HASH ==> r.hash == c.hash && r.protected == c.protected
    ensures c.sourceHash != ZERO_HASH ==> r.hash == c.sourceHash && r.protected == c.sourceProtected
  {
    if c.sourceHash != ZERO_HASH then HashAndProtected(c.sourceHash, c.sourceProtected, ZERO_HASH, false)
    else c.(sourceHash := ZERO_HASH, sourceProtected := false)
  }

  /**
   * The `protected` flag after the operand loop: set by the opcode, or by a
   * protected child -- for an addressable opcode only the first child counts.
   */
  predicate Protection(p: Prims, def: ProtectedDefinition, op: Byte, children: seq<HashAndProtected>)
  {
    || IsProtected(def, op)
    || (if p.isAddressable(op) then |children| > 0 && children[0].protected
        else exists i :: 0 <= i < |children| && children[i].protected)
  }

  /** The operand loop's update of `protected`, one child at a time. */
  lemma ProtectionAppend(p: Prims, def: ProtectedDefinition, op: Byte, cs: seq<HashAndProtected>, c: HashAndProtected)
    ensures Protection(p, def, op, cs + [c]) ==
      if p.isAddressable(op) && |cs| > 0 then Protection(p, def, op, cs)
      else Protection(p, def, op, cs) || c.protected
  {
    var cs' := cs + [c];
    assert cs'[|cs|] == c;
    assert forall i :: 0 <= i < |cs| ==> cs'[i] == cs[i];
  }

  /** One operand of a shortened concat: a merged run of constants, or a non-constant child. */
  datatype Piece = ConstRun(data: seq<Byte>) | Operand(hash: Hash)

  /**
   * How the protected-concat loop groups the children: consecutive constant
   * children accumulate in `pending` and are flushed before the next
   * non-constant child and at the end; an empty run is never flushed.
   */
  function MergeRuns(fs: seq<Formula>, pending: seq<Byte>): seq<Piece>
    decreases |fs|
  {
    if fs == [] then
      (if |pending| > 0 then [ConstRun(pending)] else [])
    else if fs[0].opcode == OP_CONSTANT then
      MergeRuns(fs[1..], pending + fs[0].result)
    else
      (if |pending| > 0 then [ConstRun(pending)] else []) + [Operand(fs[0].hash)] + MergeRuns(fs[1..], [])
  }

  /** The hashes of the non-constant children, in order. */
  function NonConstantHashes(fs: seq<Formula>): seq<Hash>
  {
    if fs == [] then []
    else (if fs[0].opcode == OP_CONSTANT then [] else [fs[0].hash]) + NonConstantHashes(fs[1..])
  }

  function OperandHashes(ps: seq<Piece>): seq<Hash>
  {
    if ps == [] then []
    else (if ps[0].Operand? then [ps[0].hash] else []) + OperandHashes(ps[1..])
  }

  /** The bytes of every constant run, in order. */
  function RunBytes(ps: seq<Piece>): seq<Byte>
  {
    if ps == [] then [] else (if ps[0].ConstRun? then ps[0].data else []) + RunBytes(ps[1..])
  }

  /** The bytes of every constant child, in order. */
  function ConstantBytes(fs: seq<Formula>): seq<Byte>
  {
    if fs == [] then [] else (if fs[0].opcode == OP_CONSTANT then fs[0].result else []) + ConstantBytes(fs[1..])
  }

  /** No two runs are adjacent and no run is empty. */
  predicate RunsMaximal(ps: seq<Piece>)
  {
    && (forall i :: 0 <= i < |ps| && ps[i].ConstRun? ==> |ps[i].data| > 0)
    && (forall i :: 0 <= i < |ps| - 1 && ps[i].ConstRun? ==> ps[i + 1].Operand?)
  }

  lemma {:induction false} OperandHashesAppend(a: seq<Piece>, b: seq<Piece>)
    ensures OperandHashes(a + b) == OperandHashes(a) + OperandHashes(b)
  {
    if a != [] {
      assert (a + b)[1..] == a[1..] + b;
      OperandHashesAppend(a[1..], b);
    } else {
      assert a + b == b;
    }
  }

  lemma {:induction false} RunBytesAppend(a: seq<Piece>, b: seq<Piece>)
    ensures RunBytes(a + b) == RunBytes(a) + RunBytes(b)
  {
    if a != [] {
      assert (a + b)[1..] == a[1..] + b;
      RunBytesAppend(a[1..], b);
    } else {
      assert a + b == b;
    }
  }

  /** Merging keeps the non-constant children, in their order, as its operands. */
  lemma {:induction false} MergeRunsOperands(fs: seq<Formula>, pending: seq<Byte>)
    ensures OperandHashes(MergeRuns(fs, pending)) == NonConstantHashes(fs)
    decreases |fs|
  {
    var flush: seq<Piece> := if |pending| > 0 then [ConstRun(pending)] else [];
    if fs == [] {
    } else if fs[0].opcode == OP_CONSTANT {
      MergeRunsOperands(fs[1..], pending + fs[0].result);
    } else {
      MergeRunsOperands(fs[1..], []);
      OperandHashesAppend(flush + [Operand(fs[0].hash)], MergeRuns(fs[1..], []));
      OperandHashesAppend(flush, [Operand(fs[0].hash)]);
    }
  }

  /** Merging keeps every constant byte, after the pending ones, in its order. */
  lemma {:induction false} MergeRunsBytes(fs: seq<Formula>, pending: seq<Byte>)
    ensures RunBytes(MergeRuns(fs, pending)) == pending + ConstantBytes(fs)
    decreases |fs|
  {
    var flush: seq<Piece> := if |pending| > 0 then [ConstRun(pending)] else [];
    if fs == [] {
    } else if fs[0].opcode == OP_CONSTANT {
      MergeRunsBytes(fs[1..], pending + fs[0].result);
      assert pending + fs[0].result + ConstantBytes(fs[1..]) == pending + (fs[0].result + ConstantBytes(fs[1..]));
    } else {
      MergeRunsBytes(fs[1..], []);
      RunBytesAppend(flush + [Operand(fs[0].hash)], MergeRuns(fs[1..], []));
      RunBytesAppend(flush, [Operand(fs[0].hash)]);
      assert [] + ConstantBytes(fs[1..]) == ConstantBytes(fs[1..]);
    }
  }

  /** Merging leaves no empty run and no two adjacent runs, and starts with an operand only when there was one. */
  lemma {:induction false} MergeRunsMaximal(fs: seq<Formula>, pending: seq<Byte>)
    ensures RunsMaximal(MergeRuns(fs, pending))
    ensures MergeRuns(fs, pending) != [] && |pending| == 0 ==> MergeRuns(fs, pending)[0].Operand? || fs != []
    decreases |fs|
  {
    var flush: seq<Piece> := if |pending| > 0 then [ConstRun(pending)] else [];
    if fs == [] {
    } else if fs[0].opcode == OP_CONSTANT {
      MergeRunsMaximal(fs[1..], pending + fs[0].result);
    } else {
      var rest := MergeRuns(fs[1..], []);
      MergeRunsMaximal(fs[1..], []);
      var r := flush + [Operand(fs[0].hash)] + rest;
      assert r == MergeRuns(fs, pending);
      forall i | 0 <= i < |r| - 1 && r[i].ConstRun?
        ensures r[i + 1].Operand?
      {
        if i >= |flush| + 1 {
          assert r[i] == rest[i - |flush| - 1];
          assert r[i + 1] == rest[i - |flush|];
        }
      }
      forall i | 0 <= i < |r| && r[i].ConstRun?
        ensures |r[i].data| > 0
      {
        if i >= |flush| + 1 {
          assert r[i] == rest[i - |flush| - 1];
        }
      }
    }
  }

  /** The operand hash a piece becomes: a run is replaced by the hash of an OPConstant formula of its bytes. */
  function PieceHash(p: Prims, pc: Piece): Hash
  {
    match pc
    case ConstRun(d) => ConstantNew(p, OP_CONSTANT, d).hash
    case Operand(h) => h
  }

  function PieceHashes(p: Prims, ps: seq<Piece>): (r: seq<Hash>)
    ensures |r| == |ps| && forall i :: 0 <= i < |ps| ==> r[i] == PieceHash(p, ps[i])
  {
    if ps == [] then [] else [PieceHash(p, ps[0])] + PieceHashes(p, ps[1..])
  }

  lemma PieceHashesAppend(p: Prims, a: seq<Piece>, b: seq<Piece>)
    ensures PieceHashes(p, a + b) == PieceHashes(p, a) + PieceHashes(p, b)
  {
  }

  /** One step of the protected-concat loop over `fs[k]`, in terms of the hashes it appends. */
  lemma MergeStepHashes(p: Prims, fs: seq<Formula>, k: nat, pending: seq<Byte>)
    requires k < |fs|
    ensures fs[k].opcode == OP_CONSTANT ==> MergeRuns(fs[k..], pending) == MergeRuns(fs[k + 1..], pending + fs[k].result)
    ensures fs[k].opcode != OP_CONSTANT ==>
      PieceHashes(p, MergeRuns(fs[k..], pending)) ==
        (if |pending| > 0 then [ConstantNew(p, OP_CONSTANT, pending).hash] else []) + [fs[k].hash]
        + PieceHashes(p, MergeRuns(fs[k + 1..], []))
  {
    assert fs[k..][0] == fs[k] && fs[k..][1..] == fs[k + 1..];
    if fs[k].opcode != OP_CONSTANT {
      var flush: seq<Piece> := if |pending| > 0 then [ConstRun(pending)] else [];
      PieceHashesAppend(p, flush + [Operand(fs[k].hash)], MergeRuns(fs[k + 1..], []));
      PieceHashesAppend(p, flush, [Operand(fs[k].hash)]);
    }
  }

  /** The protected-concat loop's state after a non-constant child: the pending run (if any) and the child are emitted. */
  lemma MergeStepOps(p: Prims, fs: seq<Formula>, k: nat, pending: seq<Byte>, ops: seq<Hash>)
    requires k < |fs| && fs[k].opcode != OP_CONSTANT
    ensures var flush := if |pending| > 0 then [ConstantNew(p, OP_CONSTANT, pending).hash] else [];
      ops + flush + [fs[k].hash] + PieceHashes(p, MergeRuns(fs[k + 1..], [])) == ops + PieceHashes(p, MergeRuns(fs[k..], pending))
  {
    MergeStepHashes(p, fs, k, pending);
    var flush := if |pending| > 0 then [ConstantNew(p, OP_CONSTANT, pending).hash] else [];
    var rest := PieceHashes(p, MergeRuns(fs[k + 1..], []));
    SeqAssoc(ops, flush + [fs[k].hash], rest);
    SeqAssoc(ops, flush, [fs[k].hash]);
  }

  /** What the protected-concat loop emits after the last child: the pending run, if any. */
  lemma MergeEndOps(p: Prims, fs: seq<Formula>, pending: seq<Byte>)
    ensures PieceHashes(p, MergeRuns(fs[|fs|..], pending)) == if |pending| > 0 then [ConstantNew(p, OP_CONSTANT, pending).hash] else []
  {
    assert fs[|fs|..] == [];
  }

  lemma SeqAssoc<T>(a: seq<T>, b: seq<T>, c: seq<T>)
    ensures a + (b + c) == a + b + c
  {
  }

  /**
   * The entry `Shortern` records for `parent`, given the effective entries of
   * its operands and the formulas those entries point to.
   */
  function ShortEntry(p: Prims, def: ProtectedDefinition, parent: Formula,
                      children: seq<HashAndProtected>, childFormulas: seq<Formula>): HashAndProtected
    requires |children| == |childFormulas|
  {
    if Protection(p, def, parent.opcode, children) && parent.opcode == OP_CONCAT then
      HashAndProtected(FormulaNew(p, OP_CONCAT, parent.result, PieceHashes(p, MergeRuns(childFormulas, []))).hash,
                       true, ZERO_HASH, false)
    else if Protection(p, def, parent.opcode, children) then
      var h := FormulaNew(p, parent.opcode, parent.result, seq(|childFormulas|, i requires 0 <= i < |childFormulas| => childFormulas[i].hash)).hash;
      if p.isAddressable(parent.opcode) && |children| > 0 then
        HashAndProtected(h, true, children[0].hash, children[0].protected)
      else
        HashAndProtected(h, true, ZERO_HASH, false)
    else
      HashAndProtected(ConstantNew(p, OP_CONSTANT, parent.result).hash, false, ZERO_HASH, false)
  }

  /**
   * A formula nothing protects becomes a constant of its own value; a
   * protected one keeps its opcode and result over the children's short
   * formulas, and is protected; an addressable one additionally records its
   * first child as source.
   */
  lemma ShortEntryCases(p: Prims, def: ProtectedDefinition, parent: Formula,
                        children: seq<HashAndProtected>, childFormulas: seq<Formula>)
    requires |children| == |childFormulas|
    ensures var e := ShortEntry(p, def, parent, children, childFormulas);
      && (e.protected <==> Protection(p, def, parent.opcode, children))
      && (!e.protected ==> e.hash == ConstantNew(p, OP_CONSTANT, parent.result).hash && e.sourceHash == ZERO_HASH)
      && (e.protected && parent.opcode != OP_CONCAT ==>
            e.hash == FormulaNew(p, parent.opcode, parent.result,
                                 seq(|childFormulas|, i requires 0 <= i < |childFormulas| => childFormulas[i].hash)).hash)
      && (e.protected && parent.opcode != OP_CONCAT && p.isAddressable(parent.opcode) && |children| > 0 ==>
            e.sourceHash == children[0].hash && e.sourceProtected == children[0].protected)
  {
  }

  /** Protection spreads upwards: a protected opcode, or a protected counted child, protects the parent. */
  lemma ProtectionSpreads(p: Prims, def: ProtectedDefinition, parent: Formula,
                          children: seq<HashAndProtected>, childFormulas: seq<Formula>, i: nat)
    requires |children| == |childFormulas| && i < |children| && children[i].protected
    requires !p.isAddressable(parent.opcode) || i == 0
    ensures ShortEntry(p, def, parent, children, childFormulas).protected
  {
  }

  /** The mapping `Reset` leaves behind. */
  function ResetMapping(p: Prims, def: ProtectedDefinition): map<Hash, HashAndProtected>
  {
    var initHash := InitZeroFormula(p).hash;
    var zeroHash := ZeroFormula(p).hash;
    var m := if IsProtected(def, OP_INIT_ZERO)
      then map[initHash := HashAndProtected(initHash, true, ZERO_HASH, false)]
      else map[initHash := HashAndProtected(zeroHash, false, ZERO_HASH, false)];
    m[zeroHash := HashAndProtected(zeroHash, false, ZERO_HASH, false)]
  }

  /**
   * After `Reset` the mapping knows exactly the two zero constants: the zero
   * constant maps to itself, unprotected; the init-zero constant maps to
   * itself (protected) when the definition protects OPInitZero, else to the
   * zero constant.
   */
  lemma ResetMappingEntries(p: Prims, def: ProtectedDefinition)
    ensures var m := ResetMapping(p, def);
      var iz := InitZeroFormula(p).hash;
      var z := ZeroFormula(p).hash;
      && m.Keys == {iz, z}
      && m[z] == HashAndProtected(z, false, ZERO_HASH, false)
      && (iz != z && IsProtected(def, OP_INIT_ZERO) ==> m[iz] == HashAndProtected(iz, true, ZERO_HASH, false))
      && (iz != z && !IsProtected(def, OP_INIT_ZERO) ==> m[iz] == HashAndProtected(z, false, ZERO_HASH, false))
  {
  }

  /** The entry `LoadChildHash` would return, from the cache or else the mapping DB. */
  function KnownChild(mapping: map<Hash, HashAndProtected>, db: KV, h: Hash): Result<HashAndProtected>
  {
    if h in mapping then Ok(mapping[h])
    else if h in db then HashAndProtectedFromBin(db[h])
    else Fail("key not found")
  }

  /** `m1` is `m0` plus entries loaded from `db`. */
  predicate GrownByLoads(m0: map<Hash, HashAndProtected>, m1: map<Hash, HashAndProtected>, db: KV)
  {
    && (forall h :: h in m0 ==> h in m1 && m1[h] == m0[h])
    && (forall h :: h in m1 && h !in m0 ==> h in db && HashAndProtectedFromBin(db[h]) == Ok(m1[h]))
  }

  /** Loading only caches: what a lookup gives does not change. */
  lemma GrownByLoadsKnown(m0: map<Hash, HashAndProtected>, m1: map<Hash, HashAndProtected>, db: KV, h: Hash)
    requires GrownByLoads(m0, m1, db)
    ensures KnownChild(m1, db, h).Ok? ==> KnownChild(m1, db, h) == KnownChild(m0, db, h)
  {
  }

  lemma GrownByLoadsTrans(m0: map<Hash, HashAndProtected>, m1: map<Hash, HashAndProtected>,
                           m2: map<Hash, HashAndProtected>, db: KV)
    requires GrownByLoads(m0, m1, db) && GrownByLoads(m1, m2, db)
    ensures GrownByLoads(m0, m2, db)
  {
  }

  class Shorterner {
    /** The persistent mapping (`global.<name>.formula_mappings`). */
    var mappingDB: KV
    /** `formulasMapping`, the in-memory cache of the mapping. */
    var mapping: map<Hash, HashAndProtected>
    const protected: ProtectedDefinition
    const p: Prims

    /** `NewShorterner`: binds the definition and its mapping DB, then resets. */
    constructor (p: Prims, def: ProtectedDefinition, mappingDB: KV)
      ensures this.p == p && protected == def && this.mappingDB == mappingDB
      ensures mapping == ResetMapping(p, def)
    {
      this.p := p;
      protected := def;
      this.mappingDB := mappingDB;
      new;
      Reset();
    }

    method Reset()
      modifies this
      ensures mapping == ResetMapping(p, protected) && mappingDB == old(mappingDB)
    {
      var m: map<Hash, HashAndProtected> := map[];
      var initHash := InitZeroFormula(p).hash;
      var zeroHash := ZeroFormula(p).hash;
      if IsProtected(protected, OP_INIT_ZERO) {
        m := m[initHash := HashAndProtected(initHash, true, ZERO_HASH, false)];
      } else {
        m := m[initHash := HashAndProtected(zeroHash, false, ZERO_HASH, false)];
      }
      m := m[zeroHash := HashAndProtected(zeroHash, false, ZERO_HASH, false)];
      mapping := m;
    }

    /**
     * `LoadChildHash`: a cached entry is returned without touching the DB;
     * otherwise the entry is read (a missing key or a malformed value
     * fails) and cached, so the next lookup of `parent` is a cache hit.
     */
    method LoadChildHash(parent: Hash) returns (r: Result<HashAndProtected>)
      modifies this
      ensures r == KnownChild(old(mapping), mappingDB, parent)
      ensures mappingDB == old(mappingDB)
      ensures parent in old(mapping) || r.Fail? ==> mapping == old(mapping)
      ensures parent !in old(mapping) && r.Ok? ==> mapping == old(mapping)[parent := r.value]
      ensures GrownByLoads(old(mapping), mapping, mappingDB)
      ensures r.Ok? ==> parent in mapping && mapping[parent] == r.value
    {
      if parent in mapping {
        return Ok(mapping[parent]);
      }
      var val := DBGet(mappingDB, parent, false);
      if val.Fail? {
        return Fail(val.msg);
      }
      r := HashAndProtectedFromBin(val.value.value);
      if r.Fail? {
        return;
      }
      mapping := mapping[parent := r.value];
    }

    /** `SaveChildHash`: writes the cached entry (the zero entry if there is none) to the DB. */
    method SaveChildHash(parent: Hash)
      modifies this
      ensures mapping == old(mapping)
      ensures mappingDB == old(mappingDB)[parent := (if parent in mapping then mapping[parent] else NO_ENTRY).Bin()]
    {
      var child := if parent in mapping then mapping[parent] else NO_ENTRY;
      mappingDB := mappingDB[parent := child.Bin()];
    }
  }
}
